# Storie storybook app — a Dafny model of its generation pipeline and screens

Storie turns a parent's story idea and a child's name into a four-act illustrated
bedtime storybook. A text model writes an outline of acts. An image service paints
each act's scene in a chosen visual style, and the pages are stored in a database.
A few screens let the user create, watch, edit, read and delete storybooks.

This project models the application's core as pure Dafny functions over immutable
records. The image request's retry loop, `generateImage`, the pipeline fold and the
whole generation job are methods, as are a few concrete scenario runs of them.
The network, the text and image services, `JSON.parse`, `atob`, the storage upload
and the database are parameters: each is a value or a function giving the outcome
the real call would have. The modules follow the source files:

- `Common` holds the shared vocabulary: `Option`, `Result`, JavaScript `trim`,
  decimal rendering and the database error text.
- `Constants` models the style table, the act titles and the image-prompt builder.
- `Records` holds the page and storybook rows and the database writes.
- `JsonSpan` and `DataUri` model the two regular expressions of the generators.
- `ImageRequest` models the retry loop and `generateImage`.
- `StoryText` models the outline and act-text generators.
- `Pipeline` models `generateFullStorybook`.
- `UseGeneration` models the job hook.
- `PageOrder` models the page sort.
- `PageEditor`, `DirectorsCut`, `StorytimeMode`, `EditStoryPage`, `StorybookList`,
  `CreateStoryPage`, `MagicPrompt`, `HomePage` and `LoginPage` model the screens.

Every failed attempt of the image request before the last is caught and retried
after `1000·(k+1)` ms, and a 429 after `2000·(k+1)` ms (generation.js:176-197),
whatever the failure was: an error status, a reply without `outputs`, a body that
is not JSON, or a rejected fetch. Page regeneration in the editor goes through the
plain `generateImage` and `generateActText`.

## Model

| member | source | states |
|---|---|---|
| Common.Trim | storybook-app/src/utils/generation.js:95 | The trimmed text is the infix left after the leading and trailing ECMAScript white space; it neither starts nor ends with white space |
| Common.TrimEmptyIffBlank | storybook-app/src/components/storybook/MagicPrompt.jsx:17-24 | A field trims to the empty string exactly when it is white space only |
| Common.TrimIdempotent | storybook-app/src/components/storybook/MagicPrompt.jsx:26 | Trimming a trimmed string changes nothing |
| Common.NatToString | storybook-app/src/utils/generation.js:186 | A status renders as decimal digits whose value is the status, without a leading zero, with more than one digit exactly from 10 up |
| Common.NatToStringInjective | storybook-app/src/utils/generation.js:186 | Different statuses never render alike |
| Common.IntToString | storybook-app/src/utils/generation.js:290 | An act number renders as its decimal digits when it is not negative, and as `-` followed by the digits of its magnitude otherwise |
| Constants.VisualStylesWellFormed | storybook-app/src/utils/constants.js:1-7 | There are five styles with pairwise distinct values, and the first is the form's default `watercolor` |
| Constants.ActTitlesAreTheFourBeats | storybook-app/src/utils/constants.js:9-14 | Exactly the four act titles, in story order |
| Constants.GetImagePrompt | storybook-app/src/utils/constants.js:16-21 | Every prompt starts with the safety preamble, ends with the scene and contains the style |
| Constants.GetImagePromptInjective | storybook-app/src/utils/constants.js:19-21 | For one style, different scenes never share a prompt |
| Records.ApplyUpdateTouchesOneField | storybook-app/src/components/storybook/DirectorsCut.jsx:40-42 | A page update changes exactly the field it names and keeps id, number, title and prompt |
| JsonSpan.Extract | storybook-app/src/utils/generation.js:70-74 | A span is found exactly when some `{…}` match exists, and it is the leftmost-longest match, as a backtracking engine reports it |
| JsonSpan.ExtractShape | storybook-app/src/utils/generation.js:70 | A span exists iff some `{` precedes some `}`; it starts with `{`, ends with `}` and is an infix of the reply |
| JsonSpan.ExtractAmidChatter | storybook-app/src/utils/generation.js:70-75 | An object, nested braces included, is extracted whole from a reply whose text before it opens no brace and whose text after it closes none |
| DataUri.StripHeader | storybook-app/src/utils/generation.js:226 | The result is a suffix of the payload, and anything removed is exactly one `data:image/<word>;base64,` header |
| DataUri.StripsOneHeader | storybook-app/src/utils/generation.js:226 | A payload with a header loses exactly that header and keeps all of the base64 text |
| DataUri.PlainPayloadUnchanged | storybook-app/src/utils/generation.js:226 | Text without a colon, which includes all base64 text, is left unchanged |
| DataUri.HeaderedAndPlainAgree | storybook-app/src/utils/generation.js:225-229 | A payload with a png header and the same payload without it decode from the same text |
| ImageRequest.Classify | storybook-app/src/utils/generation.js:176-197 | A 429 is waited out only before the last attempt; success needs an OK status with an outputs array; any other error status (a 429 included on the last attempt) fails with `Wavespeed API error: <status> <text>`; an OK reply that is not JSON fails with the parse error and one without `outputs` with `Invalid response from image API`; a rejected fetch fails with its reason; success carries the reply's outputs |
| ImageRequest.WavespeedGenerate | storybook-app/src/utils/generation.js:153-207 | One to three requests; after each failed non-final attempt k it records a 2000·(k+1) wait for a 429 and a 1000·(k+1) wait otherwise; it returns the first success's outputs; only the last attempt's error escapes; it never falls out of the loop |
| ImageRequest.RateLimitedTwiceThenServed | storybook-app/src/utils/generation.js:176-181 | Two 429 replies and then a good one: three requests, waits of 2000 and 4000 ms, and the third reply's outputs |
| ImageRequest.ServerErrorThenServed | storybook-app/src/utils/generation.js:183-205 | A 500 on the first attempt is retried after 1000 ms rather than surfaced |
| ImageRequest.ImagePrompt | storybook-app/src/utils/generation.js:214 | The scene prompt extends the shared image prompt, so it starts with the safety preamble, and ends with the no-text instruction |
| ImageRequest.FeedbackImagePrompt | storybook-app/src/utils/generation.js:103 | The feedback prompt extends the scene prompt and ends with the feedback |
| ImageRequest.FirstImage | storybook-app/src/utils/generation.js:219-223 | An image is taken only when the first output exists and is a non-empty string |
| ImageRequest.Finish | storybook-app/src/utils/generation.js:219-247 | A URL is returned iff there is a first image, its decoding succeeds and the upload succeeds, and it is the upload's URL; behind the `Failed to generate image: ` prefix, a missing image reports `No image generated`, a failed decode its own message, and a failed upload `Failed to upload image to storage` |
| ImageRequest.EmptyOutputsFail | storybook-app/src/utils/generation.js:219-223 | An empty outputs array fails with `Failed to generate image: No image generated` |
| ImageRequest.Conclude | storybook-app/src/utils/generation.js:216-247 | A thrown request error is rethrown behind the prefix; returned outputs go on to `Finish`, so the result is the uploaded URL exactly when the first image decodes and uploads |
| ImageRequest.GenerateImage | storybook-app/src/utils/generation.js:209-248 | Without a key it throws its own message and sends nothing; otherwise it sends one to three requests for exactly this scene's prompt; the first attempt to succeed ends them and its outputs decide the result through `Finish` (the uploaded URL when the image decodes and uploads); when no attempt succeeds, the third attempt's error is reported behind the prefix |
| ImageRequest.ServedFirstTime | storybook-app/src/utils/generation.js:209-243 | A scene served on the first request, with a data-URI header, yields the upload's URL after one request |
| StoryText.GenerateStoryStructure | storybook-app/src/utils/generation.js:37-80 | A missing key has its own message, distinct from the generic failure that covers every later error; an outline is only what the reported `{…}` span parses to, and a span that parses always yields that outline |
| StoryText.NoObjectNoOutline | storybook-app/src/utils/generation.js:70-73 | A reply in which no `{` precedes a `}` always fails, whatever the parser does |
| StoryText.OutlineAmidChatter | storybook-app/src/utils/generation.js:70-75 | An outline object with nested acts, inside chatter that opens no brace before it and closes none after it, yields exactly what the object parses to |
| StoryText.GenerateActText | storybook-app/src/utils/generation.js:82-100 | Text iff the call succeeded, and it is the reply with only surrounding white space removed; otherwise `Failed to generate text` |
| StoryText.ActTextEmptyIffBlank | storybook-app/src/utils/generation.js:95 | The act text is empty exactly when the reply was blank, and it is already trimmed |
| Pipeline.DraftFor | storybook-app/src/utils/generation.js:276-283 | A page takes storybook id, act number, act title, text and scene prompt from its act; it has a URL exactly when its image succeeded |
| Pipeline.ActsOf | storybook-app/src/utils/generation.js:258-263 | A failed outline and a missing or empty act list are the two fatal errors; otherwise the acts are used as given, not forced to four |
| Pipeline.GenerateFullStorybook | storybook-app/src/utils/generation.js:250-312 | A fatal error is reported once and rethrown; otherwise one page and one callback per act in act order, and a failed picture never fails the run |
| Pipeline.FailedPagesAreReported | storybook-app/src/utils/generation.js:288-299 | A page has a null URL exactly when its callback is an error report, and that report names the page's act number |
| Pipeline.TwoActsNumberedByTheOutline | storybook-app/src/utils/generation.js:268-300 | Two acts numbered 7 and 3 give two pages numbered 7 and 3; the second picture fails and the run still succeeds |
| UseGeneration.ErrorTrail | storybook-app/src/hooks/useGeneration.js:31-34 | Each reported error becomes a shown error while generating, one reported error shows exactly its message, and a run without reports shows none |
| UseGeneration.ErrorTrailConcat | storybook-app/src/hooks/useGeneration.js:31-34 | The shown errors of a run are those of its first part followed by those of the rest, so every report appears once, in order |
| UseGeneration.GenerateStory | storybook-app/src/hooks/useGeneration.js:11-64 | A failed pipeline saves nothing and sets status `error`; pages are saved before status `ready`; a failed save reports `Failed to save pages: ` and the database error's text, and sets `error`; `generating` holds until the last state and `error` starts cleared; every page error the pipeline reports is shown, in order, right after the start, and success leaves the last one displayed |
| UseGeneration.StatusSettledLast | storybook-app/src/hooks/useGeneration.js:40-60 | Every call ends with one status write for its storybook, `ready` exactly on success, with any page insert before it |
| UseGeneration.StoryJob | storybook-app/src/hooks/useGeneration.js:17-55 | With a usable outline and a good save the storybook becomes `ready` whatever happened to the pictures; without an outline no page is saved |
| UseGeneration.RegeneratePageImage | storybook-app/src/hooks/useGeneration.js:66-74 | Success follows the image alone, with one write of `image_url` on success and none on failure |
| UseGeneration.RegeneratePageText | storybook-app/src/hooks/useGeneration.js:76-84 | Success follows the text alone, with one write of `text_content` on success and none on failure |
| UseGeneration.RegenerationsTouchOneField | storybook-app/src/hooks/useGeneration.js:69 | Applied to its page, a regeneration's write changes only the field it regenerates |
| PageOrder.Insert | storybook-app/src/components/storybook/DirectorsCut.jsx:22 | Inserting into a sorted list gives a sorted list with the same pages plus the new one |
| PageOrder.SortByNumber | storybook-app/src/components/storybook/StorytimeMode.jsx:9 | The display order is sorted by page number and is a permutation of the input |
| PageOrder.InsertKeepsEquals | storybook-app/src/components/storybook/DirectorsCut.jsx:22 | Insertion puts a page ahead of the pages that share its number |
| PageOrder.SortIsStable | storybook-app/src/components/storybook/StorytimeMode.jsx:9 | Pages sharing a page number keep their input order |
| PageOrder.SortedInputUnchanged | storybook-app/src/components/storybook/DirectorsCut.jsx:22 | Pages already in order are shown as stored |
| PageEditor.KeysAreDistinct | storybook-app/src/components/storybook/PageEditor.jsx:10-11 | Busy keys of one kind are equal exactly for equal ids, and an image key is never a text key |
| PageEditor.CardOf | storybook-app/src/components/storybook/PageEditor.jsx:10-72 | The picture is covered iff the key is this page's image key; the text is replaced iff it is this page's text key; the buttons are disabled iff either holds; a missing or empty URL shows a placeholder |
| PageEditor.NeverBothBusy | storybook-app/src/components/storybook/PageEditor.jsx:10-11 | No card shows both regenerations in progress |
| PageEditor.OtherPageNeverBlocks | storybook-app/src/components/storybook/PageEditor.jsx:55-72 | A regeneration of another page never disables this card's buttons |
| DirectorsCut.Init | storybook-app/src/components/storybook/DirectorsCut.jsx:16-24 | The editor starts idle with the given pages sorted, permuted only, and stable for equal numbers; it starts with none when none are given |
| DirectorsCut.FindIndex | storybook-app/src/components/storybook/DirectorsCut.jsx:31 | Finds the first page with the id, or reports that none has it |
| DirectorsCut.UpdateWhere | storybook-app/src/components/storybook/DirectorsCut.jsx:40-42 | Same length; pages with the id get the update and every other page is unchanged |
| DirectorsCut.UpdateKeepsOrder | storybook-app/src/components/storybook/DirectorsCut.jsx:69-71 | Updating keeps every position's id and page number, so sorted pages stay sorted |
| DirectorsCut.RegenerateImage | storybook-app/src/components/storybook/DirectorsCut.jsx:26-48 | The busy key is this page's image key while running and cleared after; it sends the page's prompt with the storybook's style; success writes and updates only `image_url` of the matching pages; failure or a missing page leaves the pages and shows a prefixed error |
| DirectorsCut.RegenerateText | storybook-app/src/components/storybook/DirectorsCut.jsx:50-77 | As for images, but it sends the storybook's idea and child name with the page's act title and page number, and writes only `text_content` |
| DirectorsCut.RegenerationsKeepTheEditorInOrder | storybook-app/src/components/storybook/DirectorsCut.jsx:40-71 | After either regeneration the pages stay sorted, and each page is unchanged or differs only in the regenerated field |
| DirectorsCut.ViewOf | storybook-app/src/components/storybook/DirectorsCut.jsx:83-119 | Loading view exactly when there are no pages; otherwise one card per page in order, all reading the one busy key |
| DirectorsCut.OnlyTheTargetIsBlocked | storybook-app/src/components/storybook/DirectorsCut.jsx:111-118 | While a regeneration runs, every other page's card keeps its buttons enabled |
| StorytimeMode.Open | storybook-app/src/components/storybook/StorytimeMode.jsx:6-9 | The reader opens on index 0 over the sorted pages, a permutation of the input in which pages with equal numbers keep their order |
| StorytimeMode.Step | storybook-app/src/components/storybook/StorytimeMode.jsx:11-27 | Swipes and arrows move by exactly one, and only when the matching arrow is shown; an indicator jumps to its page; the index stays in bounds |
| StorytimeMode.ReplayStaysInBounds | storybook-app/src/components/storybook/StorytimeMode.jsx:12-27 | No sequence of gestures takes the index off the pages or changes the pages |
| StorytimeMode.OpenedReaderShowsAPage | storybook-app/src/components/storybook/StorytimeMode.jsx:6-43 | A fresh reader on a non-empty book always shows one of its pages |
| StorytimeMode.ScreenOf | storybook-app/src/components/storybook/StorytimeMode.jsx:39-117 | Shows the indexed page with the previous arrow iff index > 0 and the next arrow iff index < length-1, one indicator per page; shows "No pages" iff the index names no page |
| StorytimeMode.ExactlyOneIndicatorLit | storybook-app/src/components/storybook/StorytimeMode.jsx:108-117 | Exactly one indicator is lit, the one of the page shown |
| StorytimeMode.EmptyBookShowsNothing | storybook-app/src/components/storybook/StorytimeMode.jsx:39-43 | An empty book shows "No pages to display" after any gestures |
| EditStoryPage.Load | storybook-app/src/pages/EditStoryPage.jsx:17-31 | Loading ends either way; with data, the storybook and its pages (or `[]` when there are none) are shown, and polling is on iff the storybook is still generating |
| EditStoryPage.Poll | storybook-app/src/pages/EditStoryPage.jsx:34-50 | Without polling or without data nothing changes; with data the storybook and pages are replaced; polling stays on iff the status is still generating |
| EditStoryPage.PollingStopsAtFirstSettledStatus | storybook-app/src/pages/EditStoryPage.jsx:37-47 | After any ticks, polling is on iff it was on and every fetched status was `generating` |
| EditStoryPage.StoppedPollingStaysStopped | storybook-app/src/pages/EditStoryPage.jsx:34-35 | Once polling is off, no tick restarts it or changes the screen |
| EditStoryPage.Dots | storybook-app/src/pages/EditStoryPage.jsx:94-103 | Dot n (1 to 4) is lit iff at least n pages exist |
| EditStoryPage.LitDotsArePrefix | storybook-app/src/pages/EditStoryPage.jsx:94-100 | No dot is lit after an unlit one |
| EditStoryPage.ViewOf | storybook-app/src/pages/EditStoryPage.jsx:52-110 | Spinner iff loading; not found iff loaded without a storybook; editor iff the storybook is not generating, over its pages; otherwise progress |
| StorybookList.ActionsFor | storybook-app/src/components/storybook/StorybookList.jsx:59-98 | `ready` offers View and Edit; `generating` offers View Progress; every status ends with Delete of this storybook; links point at this storybook's routes |
| StorybookList.Render | storybook-app/src/components/storybook/StorybookList.jsx:5-29 | Loading beats everything; a missing or empty list is the empty state; a loaded, non-empty list is always the grid, with one card per storybook in list order |
| StorybookList.EveryCardCanBeDeleted | storybook-app/src/components/storybook/StorybookList.jsx:68-96 | Every card shown offers Delete of its own storybook |
| CreateStoryPage.Title | storybook-app/src/pages/CreateStoryPage.jsx:20 | An idea of at most 50 characters is its own title; a longer one is cut to its first 50 plus `...`, so titles have at most 53 characters |
| CreateStoryPage.TitleIdempotent | storybook-app/src/pages/CreateStoryPage.jsx:20 | Deriving a title from a title changes nothing |
| CreateStoryPage.HandleSubmit | storybook-app/src/pages/CreateStoryPage.jsx:16-48 | The insert comes first, with the fixed user id and status `generating`; an error or an empty reply alerts and releases the page; otherwise generation starts for the new id and only then does the page navigate to its editor |
| MagicPrompt.Submit | storybook-app/src/components/storybook/MagicPrompt.jsx:13-27 | The idea is checked before the name; a blank field is reported and nothing goes on; otherwise the error is cleared and the trimmed, non-empty idea and name go on with the style |
| MagicPrompt.HandedOnIsTrimmed | storybook-app/src/components/storybook/MagicPrompt.jsx:26 | What is handed on is already trimmed |
| MagicPrompt.IdeaCheckedFirst | storybook-app/src/components/storybook/MagicPrompt.jsx:17-24 | With both fields blank only the idea is complained about |
| HomePage.LoadedListRendering | storybook-app/src/pages/HomePage.jsx:14-16 | A load with no data shows the empty library; a load with storybooks shows one card each |
| HomePage.RemoveId | storybook-app/src/pages/HomePage.jsx:24 | No entry with the id remains |
| HomePage.RemoveIdConcat | storybook-app/src/pages/HomePage.jsx:24 | Removal distributes over concatenation, so the kept entries keep their relative order |
| HomePage.RemoveIdCounts | storybook-app/src/pages/HomePage.jsx:24 | Entries with the id are gone and every other entry is kept as often as it occurred |
| HomePage.RemoveIdIdempotent | storybook-app/src/pages/HomePage.jsx:24 | Deleting twice is deleting once, and a list without the id is unchanged |
| HomePage.HandleDelete | storybook-app/src/pages/HomePage.jsx:21-26 | An unconfirmed delete does nothing; a confirmed one issues one delete and leaves exactly the filtered list (the books with another id, in order), whatever the database answered |
| LoginPage.Digits | storybook-app/src/pages/LoginPage.jsx:124 | Removing non-digits leaves only ASCII digits, each digit as often as in the input; one character is kept iff it is a digit |
| LoginPage.DigitsConcat | storybook-app/src/pages/LoginPage.jsx:124 | Filtering two pieces and joining them is filtering the whole, so the digits stay in input order |
| LoginPage.DigitsOfDigits | storybook-app/src/pages/LoginPage.jsx:124 | A string of digits keeps all of itself |
| LoginPage.Sanitize | storybook-app/src/pages/LoginPage.jsx:124 | The code holds only digits: the first min(6, n) of the input's n digits, in order |
| LoginPage.SanitizeIdempotent | storybook-app/src/pages/LoginPage.jsx:124 | Filtering the filtered code changes nothing |
| LoginPage.VerifyEnabledAfterTyping | storybook-app/src/pages/LoginPage.jsx:124-133 | After typing, verify is enabled iff nothing is loading and the input had at least six digits |
| LoginPage.ToggleMode | storybook-app/src/pages/LoginPage.jsx:254-258 | Toggling flips the mode and clears the error and the name, and nothing else |
| LoginPage.ToggleTwice | storybook-app/src/pages/LoginPage.jsx:254-258 | Toggling twice restores the mode |
| LoginPage.BackToLogin | storybook-app/src/pages/LoginPage.jsx:160-164 | Leaves verification, clears the code and the error and selects sign-in, and nothing else |
| LoginPage.HandleSubmit | storybook-app/src/pages/LoginPage.jsx:35-63 | A refusal shows its message or the mode's fallback; a throw shows the generic message; a sign-up needing verification enters it; any other success goes home; loading ends on every path; only the error, loading and verification flags change |
| LoginPage.HandleVerifyCode | storybook-app/src/pages/LoginPage.jsx:66-83 | Goes home iff verified; otherwise shows the message, the long fallback or the generic message; loading ends |
| LoginPage.HandleResendCode | storybook-app/src/pages/LoginPage.jsx:85-100 | A refusal or throw shows the resend fallback unless a message is given; a reported success clears the error; an unflagged success changes nothing |

## Left out

- Network calls: the chat and image endpoints are given by their outcomes. The OpenAI error text is not modelled, because both text generators replace it with their own message.
- Waiting: the retry loop records its delays but does not wait.
- `JSON.parse`, `atob`, `Blob` and the storage upload are parameters. Base64 decoding is not re-implemented.
- The no-text instruction is a parameter, `noText`. The generators import it, but `constants.js` does not define it, so its wording is unknown.
- Progress messages and console logging carry no behaviour and are not modelled.
- Concurrency is not modelled. This covers the fire-and-forget start of generation, the three-second polling interval, the load's cancellation on unmount, and overlapping regenerations that share one busy slot. Each is a sequential step.
- `regenerateImageWithFeedback` is modelled only as its prompt, `ImageRequest.FeedbackImagePrompt`. `regenerateTextWithFeedback` is not modelled. Nothing in the screens calls either.
- The parsed outline is assumed to be an object with a title and an optional act list. Other JSON values, such as `null`, a non-array `acts` or acts with missing fields, are not modelled.
- Output items of the image service that are truthy but not strings are modelled as absent. The real code throws a different `TypeError` for them, which is still wrapped by the same prefix.
- CreateStoryPage.Title: counts Unicode code points, while JavaScript counts UTF-16 code units, so titles with characters outside the Basic Multilingual Plane are cut at a different place.
- PageOrder.SortByNumber: page numbers are integers; the JavaScript comparator over arbitrary numbers (fractions, `NaN`) is not modelled.
- UseGeneration.GenerateStory: the result of the status updates is not a parameter, because the code never acts on it; the progress string is left out.
- The authentication SDK, session handling, routing, the already-signed-in redirect, the fullscreen toggle, and the `alert` and `confirm` dialogs are left out. A confirmation answer is a parameter; the two alerts of CreateStoryPage are effect values.
- LoginPage.HandleResendCode: the `resending` flag that disables the resend button while the request is in flight is not modelled; it only guards against a second concurrent resend, which falls under the concurrency line above. The `Verification email sent!` alert after a successful resend is not modelled either; the function returns only the page state.
- DirectorsCut.MissingPageMessage: the `TypeError` text for an unknown page id is V8's wording; other JavaScript engines word it differently, and the application does not choose it.
- Typing into the email, password and name fields, the cover image, the creation date and the status badge colours carry no rules and are not modelled.
