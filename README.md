# BlockScope scan workflow, modelled in Dafny

BlockScope's browser client lets a user paste Solidity source and have it
scanned for security findings. This project models the client-side workflow in
`frontend/src/App.jsx`:

- **Severity badge** (`Findings.SeverityBadge`): a lookup table from severity to a
  colour class. The badge shows the raw severity as its text.
- **Finding card** (`Findings.FindingCard`, `Findings.RenderCard`): a card with
  an `expanded` flag. It shows the line label and the code snippet only under
  JavaScript's truthiness rules.
- **Results view** (`Results.ResultsList`): three exclusive branches. These are
  the scanning indicator, the "no vulnerabilities" state, and a heading plus one
  keyed card per finding.
- **Scan form** (`ScanForm.ScanForm`, `ScanForm.SubmissionFor`): rejects text
  that `String.prototype.trim` (modelled in `JsText`) leaves empty. Otherwise it
  emits the text with the fixed name `UploadedContract.sol`.
- **Scan controller** (`Controller.App`): the five `useState` cells, as a class
  with those fields. The asynchronous `handleScan` is split into two events. The
  first is the part before the `await` (`HandleScanBegin`). The second is the
  settlement: either a response, whose `findings` may be missing, or a thrown
  error with its message (`HandleScanSettle`). "New Scan" is the third
  transition.

Each method is specified by a function on a `ScanState` snapshot
(`AfterBegin`, `AfterSettle`, `AfterNewScan`). `Controller.Step` and
`Controller.Run` replay a sequence of user and service events. Each event is
allowed only where the page offers it:
- the form only on the scan page;
- its button disabled while loading;
- a settlement only while a scan is outstanding;
- "New Scan" only on the results page.

`Controller.RunKeepsInv` proves an invariant over every reachable state: while
loading, the form page is showing and no error is recorded; on the results page
there is no error and no scan in flight.

Where the code's behaviour may surprise, the model follows the code:
- Severities stay open strings. An unknown one gets the class token
  `undefined` from the template literal; there is no neutral fallback and no
  ranking.
- A line number of 0 renders React's stray text "0" rather than nothing.
- The error banner exists only on the results page. The invariant shows that it
  is never displayed (see Findings).

## Model

| member | source | states |
|---|---|---|
| Findings.SeverityColour | frontend/src/App.jsx:23-28 | A colour class exists exactly for CRITICAL, HIGH, MEDIUM and LOW, and it comes from the table. |
| Findings.SeverityColoursDistinct | frontend/src/App.jsx:23-28 | Two different recognised severities have different colour classes. |
| Findings.SeverityBadge | frontend/src/App.jsx:22-37 | The badge text is the severity as received. A table colour is among the badge's classes iff the severity maps to it, so an unknown severity shows its raw text with no colour. |
| Findings.RenderCard | frontend/src/App.jsx:52-66 | Badge, title and description always show. The line label shows iff line_number is present and non-zero, and 0 renders a stray "0". The snippet shows iff expanded and code is a non-empty string, and it is that code. |
| Findings.ExpansionOnlyAffectsSnippet | frontend/src/App.jsx:62-66 | Expanding changes nothing but the snippet; a card whose code is missing or empty looks the same either way. |
| Findings.FindingCard.constructor | frontend/src/App.jsx:43 | A card mounts collapsed. |
| Findings.FindingCard.Click | frontend/src/App.jsx:48 | A click flips `expanded` and re-renders the card with the new flag. |
| Findings.DoubleClick | frontend/src/App.jsx:43-48 | Two clicks restore the flag and the card's view. |
| Results.Heading | frontend/src/App.jsx:101-103 | The list heading ends with the contract name. |
| Results.ResultsList | frontend/src/App.jsx:76-109 | Exactly one branch is chosen. Scanning iff loading, whatever the findings and name. Otherwise the empty state iff there are no findings. Otherwise the heading for the name and cards of the same count and order as the findings, each keyed by its index. |
| Results.CardFindings | frontend/src/App.jsx:105-107 | Lists the findings the cards display, one per card, in card order. |
| Results.ListShowsFindingsInOrder | frontend/src/App.jsx:105-107 | A listed view displays exactly the given findings in order, and no two cards share a key. |
| JsText.SkipLeading | frontend/src/App.jsx:121 | Finds the first position that is not white space; everything before it is white space. |
| JsText.SkipTrailing | frontend/src/App.jsx:121 | Finds the end of the text once its trailing white space is dropped; everything after it is white space. |
| JsText.Trim | frontend/src/App.jsx:121 | `code.trim()` is a slice of the input with white space outside it and none at its ends, and it is empty iff the input is blank. |
| ScanForm.SubmissionFor | frontend/src/App.jsx:121-126 | Blank text emits nothing. Any other text emits exactly (code, "UploadedContract.sol"). |
| ScanForm.ScanForm.constructor | frontend/src/App.jsx:116-117 | The form starts with empty code and no error. |
| ScanForm.ScanForm.ErrorShown | frontend/src/App.jsx:131-135 | The inline error box shows iff the error is non-empty, and it shows that message. |
| ScanForm.ScanForm.Edit | frontend/src/App.jsx:139 | Typing replaces the code and leaves the error alone. |
| ScanForm.ScanForm.Submit | frontend/src/App.jsx:119-127 | Blank code sets the non-empty inline message and emits nothing. Other code clears the error and emits (code, the fixed name). The code itself is kept. |
| Controller.AfterBegin | frontend/src/App.jsx:177-179 | Starting a scan sets loading, clears the error and records the name, and keeps page and findings. |
| Controller.AfterSettle | frontend/src/App.jsx:181-188 | On success the findings become the response's (or [] if absent) and the page becomes results. On failure the error becomes the message and page and findings are kept. Loading ends either way, and the name is kept. |
| Controller.AfterNewScan | frontend/src/App.jsx:214 | "New Scan" sets the page to scan and keeps findings, name, loading and error. |
| Controller.StepKeepsInv | frontend/src/App.jsx:145 | Every offered event keeps the reachable-state invariant and keeps the name to "" or the form's fixed name. |
| Controller.RunKeepsInv | frontend/src/App.jsx:175-189 | Every sequence of offered events from a state satisfying the invariant ends in a state satisfying it. |
| Controller.BlankSubmitStartsNothing | frontend/src/App.jsx:121-124 | A blank submission leaves the controller's state unchanged, so no scan starts. |
| Controller.SubmitStartsScan | frontend/src/App.jsx:125-126 | A non-blank submission starts a scan under the fixed name, after which the form is disabled. |
| Controller.SuccessfulScanShowsFindings | frontend/src/App.jsx:181-187 | After a successful scan the page is results and loading is off. The findings are the response's, shown as the empty state when there are none, otherwise as cards in response order. |
| Controller.FailedScanKeepsPage | frontend/src/App.jsx:184-187 | After a failed scan the page and findings are those from before the submission, the error is the message and loading is off. |
| Controller.Banner | frontend/src/App.jsx:221-225 | The banner shows iff the error is non-empty, and it shows the message verbatim. |
| Controller.Render | frontend/src/App.jsx:202-233 | The form page shows iff the page is scan, with its button disabled iff loading and with no banner. The results page shows the banner and the results view of the current cells. |
| Controller.ErrorBannerUnreachable | frontend/src/App.jsx:221-225 | In no reachable state does the page show an error banner, and the results page never shows the scanning indicator. |
| Controller.FailedScanMessageHidden | frontend/src/App.jsx:184-187 | A failed scan of "contract C {}" with "Service unavailable" records the message but shows the plain, enabled form. |
| Controller.RenderWithBanner | frontend/src/App.jsx:221-225 | The corrected page shows the banner over whichever view is active. |
| Controller.FailedScanMessageShown | frontend/src/App.jsx:184-187 | With the corrected page, a failed scan shows its non-empty message verbatim over the enabled form. |
| Controller.App.constructor | frontend/src/App.jsx:169-173 | Page scan, no findings, empty name, not loading, no error, so no error banner shows. |
| Controller.App.HandleScanBegin | frontend/src/App.jsx:175-181 | Updates the cells as AfterBegin, issues the request (code, name) and keeps the invariant, so no error banner shows. The disabled button is modelled as a precondition. |
| Controller.App.HandleScanSettle | frontend/src/App.jsx:182-188 | Updates the cells as AfterSettle (the try body or the catch, then the finally) and keeps the invariant, so no error banner shows. |
| Controller.App.NewScan | frontend/src/App.jsx:214 | Updates the cells as AfterNewScan and keeps the invariant, so no error banner shows. |
| Controller.App.SubmitFromForm | frontend/src/App.jsx:207 | The form wired to handleScan. The form keeps its code. A request is issued iff the code is not blank, and it is (code, the fixed name), with the form's error cleared. Otherwise the form shows its message and the controller is unchanged. |

## Findings

| source | as written | input that shows it | evidently intended | confidence | as-written member | corrected member |
|---|---|---|---|---|---|---|
| frontend/src/App.jsx:221-225 | The error banner is rendered only on the results page. A failed scan stays on the scan page, and every successful one clears the error first. So a recorded error is never on screen. | Submit "contract C {}" and let the scan fail with "Service unavailable". | The failure message appears over the active view, which is the form. | high (not executed) | Controller.ErrorBannerUnreachable | Controller.FailedScanMessageShown |

The same invariant also shows that the results page never renders the
`ResultsList` scanning branch (frontend/src/App.jsx:77-86). While a scan is in
flight, the page is always the form, whose button shows the busy state instead.

## Left out

- `apiClient.scanContract` is a network client whose code is not part of this model. It appears only as the request a scan issues and the outcome it settles with.
- The timing of `async`/`await` and React's re-rendering are reduced to discrete begin and settle events. React's batching of state updates is not modelled.
- JSX markup, CSS classes other than the badge table, the lucide icons, and the navbar and footer are left out because they are purely presentational.
- ScanForm.ScanForm: its lifetime is not modelled. The form unmounts when the results page shows and remounts with empty code after "New Scan".
- Findings.SeverityColour: inherited object keys such as "toString", which a JavaScript object lookup would also find, are treated as unrecognised.
- JsText.Trim works on Unicode scalar values, not UTF-16 code units. This makes no difference to which text is blank, because every JavaScript white-space character is a single code unit.
- Controller.AfterSettle: a thrown value without a `message` (which would record `undefined`) and a `findings` field that is not an array are not modelled. The message is a string and the findings a sequence.
- The client ranks no severities (it only looks up a colour), so there is no ranking to model.
- backend/analysis/tests/test_integration.py and backend/tests/test_scan_endpoint.py drive a scan orchestrator and HTTP router that are not part of this model. backend/app/models/finding.py is a table declaration with no behaviour.
