# Detection dashboard: proxy handlers and check views

A Dafny model of a small Next.js front end for an external AI and
plagiarism detection service. Its server side is five proxy route files
with six handlers. Each injects the secret API key and forwards one request
upstream. Its browser side has an upload form and upload page, a history
page, a dashboard over check summaries, and a check detail page that polls
a check until it finishes. The model covers three of the route files (four
handlers, each of which reshapes the upstream answer as JSON) and the
upload form, the history page, the dashboard and the check card. The
remaining parts are listed under "Left out". In detail:

- **Proxy handlers** (`ChecksRoute`, `CheckRoute`, `KeyDetailsRoute` over
  the shared `Proxy` module). Each handler is a pure function from the
  configuration and the upstream outcome to the request it sends (if any)
  and the response it returns. The upstream outcome is either "the call
  threw" or a status, a body text and what `JSON.parse` makes of it. One
  shared `Decode` (`Json(value) | PlainText(text)`) and one shared `Relay`
  give the list, submit and key-details handlers their common decision
  table. The delete-all handler keeps its own rules: on failure it always
  answers `{error: <raw text>}`. `Routes` states what the four handlers
  share: without a key or a base URL none of them sends anything.
- **Upload form** (`FileUpload`). `ValidateFile` checks the MIME type and
  then the 100 MiB size limit. The class `UploadForm` holds the form's state
  fields. Its drop, select, remove and submit handlers are methods. The
  simulated progress interval is a loop whose firings before the response
  are a parameter.
- **Check lists** (`CheckLists`, `History`, `Dashboard`). These are the
  status tabs and their counts, the newest-first stable sort and the
  dashboard's five most recent checks. `HistoryPage` and `DashboardPage` are
  classes holding each page's state. Their loading and delete handlers are
  methods, and the browser's `fetch` outcome is a parameter.
- **Check card** (`CheckCard`). These are the status badge and file icon
  lookups with their fallbacks, and the text defaults for missing fields.

JavaScript semantics the code relies on are written out in `Js`. They are
truthiness for `||` and `&&`, `String(v)` for `new Error(v)` and template
literals, and the TypeError thrown when a property of `null` is read.
Timestamps are integers.

The upstream status is a final response's three-digit code, from 200 to
999: a resolved `fetch` passes a code beyond 599 through unchanged. Each
handler answers a non-OK status through `NextResponse.json(data,
{ status })`. That call throws for a null-body status (304 among the
non-OK codes) and for a status outside 200 to 599, as "initialize a
response" in the WHATWG Fetch Standard requires. The throw happens inside
the handler's `try`, so the model answers such a status with the handler's
500 fallback (`Proxy.RefusedStatus`, `Proxy.RespondWithStatus`).

## Model

| member | source | states |
|---|---|---|
| Types.ParseStatus | src/types/index.ts:79 | a wire status names a status exactly when it is one of the four names, and it names the status whose name it is |
| Types.StatusNameRoundTrip | src/types/index.ts:79 | parsing a status's wire name gives that status back |
| Types.ParsePriority | src/types/index.ts:80 | a wire priority names a priority exactly when it is "low", "normal" or "high", and it names the priority whose name it is |
| Proxy.Decode | src/app/api/checks/route.ts:20-27 | the body is the parsed JSON exactly when the text parses, else the raw text itself |
| Proxy.RespondWithStatus | src/app/api/checks/route.ts:29-31 | a JSON response under a status keeps that status and body, except that a null-body status or one outside 200 to 599 makes the construction throw into the 500 fallback |
| Proxy.Relay | src/app/api/checks/route.ts:20-40 | a thrown call answers 500 with the fallback message; otherwise the body is the parsed JSON or `{error: text}`; the status is 200 for an OK upstream and the upstream status otherwise, except that a not-OK null-body status or one from 600 to 999 gives the 500 fallback |
| Proxy.Call | src/app/api/checks/route.ts:15-18 | the request leaves exactly when the base URL is set; with it unset the URL "undefined/..." does not parse, `fetch` throws before sending, and the answer is the thrown-call row of the relay |
| ChecksRoute.List | src/app/api/checks/route.ts:6-41 | without a key: 500 `{error: "API key not configured"}` and no request; without a base URL: 500 "Failed to fetch checks" and no request; otherwise exactly the GET to `/api/checks?apiKey=<key>`, answered by the shared relay with "Failed to fetch checks" as the fallback |
| ChecksRoute.DeleteAll | src/app/api/checks/route.ts:43-82 | without a key: the configuration error and no request; without a base URL: 500 "Failed to delete checks" and no request; otherwise a POST of `{apiKey}` to `/api/deleteAll`; on success the parsed JSON or `{message: text}`; on failure `{error: text}` with the raw text under the upstream status, even when the text parsed; a throw, a null-body status or a status from 600 to 999 gives 500 "Failed to delete checks" |
| ChecksRoute.FailedJsonForwardedByListOnly | src/app/api/checks/route.ts:62-72 | for a failed upstream answer that is JSON, the list handler forwards that JSON and the delete handler does not |
| CheckRoute.FormGet | src/app/api/check/route.ts:16 | the field read is missing exactly when no field has that name, and otherwise it is the first of the form's fields with that name |
| CheckRoute.Submit | src/app/api/check/route.ts:6-55 | the key is checked first; then an unreadable form gives 500 "Failed to submit check" and a missing or empty `file` field gives 400 "No file uploaded", neither with a request; an unset base URL gives 500 "Failed to submit check" with nothing sent; otherwise the form sent holds exactly `apiKey` and `file`, and the answer is the shared relay's |
| CheckRoute.UploadForwarded | src/app/api/check/route.ts:22-30 | with the base URL set, an uploaded file reaches upstream unchanged in a POST to `/api/check` beside the key; with it unset nothing is sent |
| KeyDetailsRoute.Details | src/app/api/key/details/route.ts:6-41 | without a key: the configuration error and no request; without a base URL: 500 "Failed to fetch API key details" and no request; otherwise exactly the GET to `/api/key/details?apiKey=<key>`, answered by the shared relay with "Failed to fetch API key details" as the fallback |
| KeyDetailsRoute.SameTableAsChecksList | src/app/api/key/details/route.ts:20-40 | for every configuration and upstream outcome, this handler answers with the same status as the checks list handler, and the responses differ only in the 500 fallback message |
| Js.ErrorMessage | src/app/history/page.tsx:27 | the message of `new Error(body[k1] or body[k2] ... or fallback)`: when some key names a truthy field, the first such field as a string; when none does, the fallback; for `null`, the TypeError of reading the first key |
| Js.FirstTruthy | src/components/FileUpload.tsx:104 | for a value that is not `null`, the first key holding a truthy field gives the message, and the message is the fallback when no key does |
| Js.FailureMessage | src/app/history/page.tsx:36-37 | the message a failed browser fetch shows: the rejection's message, the parse error's message, or the error-body message of a not-OK response |
| CheckLists.Filter | src/app/history/page.tsx:65-69 | a tab's list holds exactly the checks of the list that match the tab, and is no longer than the list |
| CheckLists.Count | src/app/history/page.tsx:71-76 | a tab's count is at most the number of checks |
| CheckLists.FilterAllIsWholeList | src/app/history/page.tsx:66 | the "all" tab shows the whole list |
| CheckLists.FilterIsSubsequence | src/app/history/page.tsx:65-69 | a tab's list is an order-preserving subsequence of the list |
| CheckLists.FilterLengthIsCount | src/app/history/page.tsx:65-76 | a tab shows exactly as many checks as its count |
| CheckLists.CountAllIsLength | src/app/history/page.tsx:72 | the "all" count is the length of the list |
| CheckLists.TabsPartition | src/app/history/page.tsx:71-76 | when every status is one of the four, pending + completed + failed equals all |
| CheckLists.CompletedAndPendingDisjoint | src/app/page.tsx:59-60 | the completed and in-progress counts together never exceed the number of checks counted |
| CheckLists.InsertByAge | src/app/history/page.tsx:31-34 | inserting into a newest-first list keeps it newest first and adds exactly that check |
| CheckLists.SortNewestFirst | src/app/history/page.tsx:31-34 | the sorted list is newest first, of the same length, and a permutation of the input |
| History.HistoryPage.constructor | src/app/history/page.tsx:10-14 | the page starts loading, with no checks, no error, the "all" tab and no delete under way |
| History.HistoryPage.Counts | src/app/history/page.tsx:71-76 | each tab's number is the count of its matching checks, "all" is the list length, and the other three add up to it when every status is known |
| History.HistoryPage.FilteredChecks | src/app/history/page.tsx:65-69 | the shown checks are exactly the matching ones, in list order, as many as the selected tab's number, and the whole list under "all" |
| History.HistoryPage.SelectFilter | src/app/history/page.tsx:120 | clicking a tab selects it and changes nothing else |
| History.HistoryPage.FetchChecks | src/app/history/page.tsx:20-41 | on success the list becomes the fetched checks newest first (a permutation of them) and an earlier error stays; on failure the list is kept and the error is the failure's message; for a not-OK response with an object body, that message is its truthy `error` field, else "Failed to fetch checks"; loading ends false |
| History.HistoryPage.HandleDeleteAll | src/app/history/page.tsx:43-63 | an unconfirmed delete changes nothing; a successful one empties the list; a failed one keeps it and sets the error; for a not-OK response with an object body, that error is its truthy `error` field, else "Failed to delete checks"; deleting ends false |
| Dashboard.Recent | src/app/page.tsx:33-37 | the recent list has min(n, 5) checks, is the prefix of the newest-first order, is itself newest first and is drawn from the input |
| Dashboard.RecentAreNewest | src/app/page.tsx:33-37 | every kept check is at least as new as every check left out |
| Dashboard.DashboardPage.constructor | src/app/page.tsx:12-15 | the dashboard starts loading, with no key details, no recent checks and no error |
| Dashboard.DashboardPage.CompletedChecks | src/app/page.tsx:59 | the length of the recent list filtered to completed checks equals the independent one-by-one count, and is at most the recent list's length |
| Dashboard.DashboardPage.PendingChecks | src/app/page.tsx:60 | the length of the recent list filtered to pending or processing checks equals the independent one-by-one count, and is at most the recent list's length |
| Dashboard.DashboardPage.StatsBounded | src/app/page.tsx:59-60 | the two stats together are at most the number of recent checks, which is at most 5 |
| Dashboard.DashboardPage.FetchData | src/app/page.tsx:18-46 | a rejected request sets only the fixed error; otherwise an OK key response sets the key details and an OK checks response sets the recent list, independently, except that an unreadable key body throws before the checks are used; any throw sets "Failed to load dashboard data"; loading ends false and at most 5 checks are kept |
| FileUpload.ValidateFile | src/components/FileUpload.tsx:28-36 | no error exactly for one of the four accepted MIME types at most 104,857,600 bytes; the type is checked before the size |
| FileUpload.SizeBoundary | src/components/FileUpload.tsx:32 | for an accepted type, 104,857,600 bytes pass and 104,857,601 bytes fail with the size message |
| FileUpload.FileTypeLabel | src/components/FileUpload.tsx:169 | the held file's label is "Document" exactly when its type is not one of the accepted four, and each accepted type gets its own label: PDF, DOC, DOCX, TXT |
| FileUpload.ProgressAfter | src/components/FileUpload.tsx:85-87 | after n interval firings the progress is min(10n, 90), never above 90 |
| FileUpload.ProgressNeverDecreases | src/components/FileUpload.tsx:86 | the simulated progress never goes down and stays at most 90 |
| FileUpload.SubmitError | src/components/FileUpload.tsx:103-111 | a not-OK upload shows a truthy `data.error`, else a truthy `data.message`, else "Failed to submit check" (the TypeError for a `null` body); a rejection or parse failure shows its own message; an OK `null` body shows the TypeError of reading `checkId` |
| FileUpload.UploadForm.constructor | src/components/FileUpload.tsx:22-26 | the form starts with no file, no error, no drag, no upload and progress 0 |
| FileUpload.UploadForm.HandleDragOver | src/components/FileUpload.tsx:38-41 | dragging over marks the drop zone active |
| FileUpload.UploadForm.HandleDragLeave | src/components/FileUpload.tsx:43-46 | leaving clears the drag mark |
| FileUpload.UploadForm.TakeFile | src/components/FileUpload.tsx:51-61 | a valid file is held and the error cleared; an invalid one sets its error and leaves the held file; no file only clears the error |
| FileUpload.UploadForm.HandleDrop | src/components/FileUpload.tsx:48-62 | the drag mark is cleared, then the dropped file is taken as above |
| FileUpload.UploadForm.HandleFileSelect | src/components/FileUpload.tsx:64-75 | the selected file is taken as above |
| FileUpload.UploadForm.RemoveFile | src/components/FileUpload.tsx:175 | the held file is dropped |
| FileUpload.UploadForm.HandleSubmit | src/components/FileUpload.tsx:77-116 | with no held file nothing changes; otherwise the file is posted, the progress seen before the response is min(10k, 90) after k firings, a redirect to `/check/<checkId>` leaves progress 100 and no error, and a failure shows its message and resets progress to 0; uploading ends false |
| Routes.NoCallWithoutKeyOrBaseUrl | src/app/api/checks/route.ts:6-18 | without a key or a base URL, none of the four handlers sends a request, and each answers the same whatever upstream would have done |
| CheckCard.StatusBadge | src/components/CheckCard.tsx:85 | a known status gets its own entry and an unknown one the Pending entry |
| CheckCard.StatusTitlesDistinct | src/components/CheckCard.tsx:10-56 | the four statuses show four different titles: Pending, Processing, Completed, Failed |
| CheckCard.FileIconFor | src/components/CheckCard.tsx:86 | "pdf", "doc" and "docx" each get their own icon; a missing file, a missing type or an unknown type gets the txt icon |
| CheckCard.FileNameText | src/components/CheckCard.tsx:120 | the original file name, or "Unknown File" when it is missing or empty |
| CheckCard.AsciiUpper | src/components/CheckCard.tsx:123 | upper-casing keeps the length and upper-cases each letter |
| CheckCard.FileTypeText | src/components/CheckCard.tsx:123 | the file type upper-cased, or "FILE" when it is missing or empty |
| CheckCard.PlanText | src/components/CheckCard.tsx:146 | the plan type, or "standard" when it is missing or empty |
| CheckCard.PriorityView | src/components/CheckCard.tsx:148-156 | the priority is shown exactly when present and not empty, and highlighted exactly when it is "high" |
| CheckCard.Render | src/components/CheckCard.tsx:84-172 | a card links to `/check/<checkId>` and never shows an empty name, type, status or plan; its icon is not the txt one only when the file type is present |

## Left out

- The HTTP `fetch`, `NextResponse`, `FormData`, `JSON.parse` and `response.json()` internals are foreign calls. Their outcomes are inputs: `Proxy.UpstreamOutcome` on the server and `Js.Fetched` in the browser.
- The `cache: "no-store"` fetch option and the JSON content-type header of the delete request are not modelled. The delete request's body is modelled as a JSON value.
- Server-side logging of caught errors (`console.error`) is not modelled.
- JSON numbers are integers. Fractions, exponents and NaN are not modelled, and neither is their printing by `String(v)`.
- Js.IntToString: prints every integer in full, whereas JavaScript prints a magnitude of 10^21 or more in exponent form (`String(1e21)` is "1e+21").
- A base URL that is set but does not form an absolute URL also makes `fetch` throw before sending. The model only distinguishes set from unset. A set, malformed base URL is recorded as sent, and the caller gives its outcome as `Threw`, which the relay answers with the same 500 fallback.
- Properties that JavaScript objects inherit from `Object.prototype` are not modelled. A status or file type such as "constructor" is treated as unknown, but the real lookup would find the inherited member.
- Js.NullReadMessage: the TypeError's text is the wording of V8 (Chrome, Edge, Node). Firefox and Safari word it differently, and the page shows whichever the user's browser gives.
- Non-null values that are not objects have no `error`, `message` or `checkId` property in the model. Nothing else is read from them.
- Browser-side success bodies are modelled already decoded: a list of `CheckListItem` or an `ApiKeyDetails`. The TypeError that `sort` would throw on a non-array body is not modelled.
- Dates are integer timestamps. `new Date(...)` parsing, invalid dates (whose comparator yields NaN) and `toLocaleDateString` formatting are not modelled.
- CheckCard.AsciiUpper: upper-cases ASCII letters only, because `toUpperCase` maps the whole of Unicode.
- Both `formatFileSize` functions use floating-point division and `toFixed`, so they are not modelled. `FileInfo.fileSize` is a `real` that nothing reads.
- `Array.prototype.sort` sorts the freshly parsed array in place. That array is local and unshared, so the model sorts a sequence. The sort is stable, as ES2019 requires, but only "newest first" and "a permutation" are proved about it.
- The 200 ms timer, `Promise.all`, the `confirm()` dialog and `router.push` belong to the environment. They are modelled as a count of firings before the response, as two outcomes resolved together, as a boolean, and as the recorded `redirectedTo`. React's batching of state updates is not modelled.
- FileUpload.UploadForm.HandleSubmit: the disabled states of the button and the file input (`disabled={!file || isUploading}`) are UI gating and are not preconditions.
- The other route handlers (check by id, plagiarism report), the check detail page with its polling loop, and report-download gating are not part of this model. Neither are the presentational components (header, empty state, stats card, spinner, layout, upload page).
