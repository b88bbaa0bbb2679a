# Scan-configuration form of jacksearch, in Dafny

This project models the "Create New Scan" landing page of the jacksearch front end
(`LandingPage` in `jacksearch/src/pages/home/index.tsx`). The page holds a small form:
a target, a scan mode (none, fast or deep), an advanced-options panel with two free-text
fields and a numeric max-duration field, a legal-acceptance checkbox and the template preview that the mode selects. A
start button builds a scan-request payload when the legal box is ticked and a target is
present, and then moves to the dashboard.

The model is functional:

- `results.dfy` — `Option` and `Result`.
- `templates.dfy` (`ScanTemplates`) — the modes and the fixed mode-to-template table.
- `form.dfy` (`ScanForm`) — the immutable `FormState`, one pure function per input handler,
  the start gate, and `Submit`, which returns `Result<Launch, PreconditionError>`.
  A `Launch` is the request plus the dashboard route.
- `session.dfy` (`ScanSession`) — a user session as a list of events folded over the form.
  Every start press with the gate open appends one request. Its lemmas are proved by
  induction over the event list: the form invariant, soundness of every sent request,
  checkbox parity, last-edit-wins for target and mode, and stability of the advanced options.
- `scenarios.dfy` (`ScanScenarios`) — concrete walks from the fresh form.

The form invariant `Consistent` says the shown template is `TemplateOf(mode)`. So it is
absent exactly when no mode is chosen. The clock reading (`new Date().toISOString()`) is
the `timestamp` parameter of `Submit`.

The three advanced options are separate fields of `FormState`. The request names them
`flags`, `exclude` and `maxDuration`. `Submit` decides at once; the page only delays its
success alert and the move to the dashboard with a timer.

## Model

| member | source | states |
|---|---|---|
| ScanTemplates.TemplateOf | jacksearch/src/pages/home/index.tsx:47-66 | the table gives no template exactly for the unset mode; each template's tool list is non-empty and has no repeats, which the preview needs because it keys items by tool name |
| ScanTemplates.ChoiceMatchesTable | jacksearch/src/pages/home/index.tsx:49-65 | the handler's fast-else-deep conditional installs the same template as the mode table for either button |
| ScanTemplates.TemplateOfInjective | jacksearch/src/pages/home/index.tsx:47-66 | distinct modes show distinct templates, so the template is fully determined by and determines the mode |
| ScanForm.Initial | jacksearch/src/pages/home/index.tsx:32-44 | the fresh form has empty strings, false flags and no template; it satisfies the invariant and its gate is closed |
| ScanForm.SetTarget | jacksearch/src/pages/home/index.tsx:127 | the typed text becomes the target verbatim and no other field changes; the gate is then open iff legal is accepted and the text is non-empty |
| ScanForm.SelectMode | jacksearch/src/pages/home/index.tsx:47-66 | choosing a mode stores it and leaves the form consistent whatever it was before; only mode and template change, and the gate is unaffected |
| ScanForm.ToggleAdvanced | jacksearch/src/pages/home/index.tsx:235 | only panel visibility flips; the advanced values, the invariant and the gate are untouched |
| ScanForm.SetCustomFlags | jacksearch/src/pages/home/index.tsx:259 | any text is stored verbatim as the custom flags; nothing else changes and the gate is unaffected |
| ScanForm.SetExcludePaths | jacksearch/src/pages/home/index.tsx:275 | any text is stored verbatim as the exclude paths; nothing else changes and the gate is unaffected |
| ScanForm.SetMaxDuration | jacksearch/src/pages/home/index.tsx:287-292 | whatever text the handler receives is stored verbatim as the max duration, with no numeric check of its own; nothing else changes |
| ScanForm.ToggleLegal | jacksearch/src/pages/home/index.tsx:316 | only legal acceptance flips; the gate is then open iff it was not accepted before and the target is non-empty |
| ScanForm.Submit | jacksearch/src/pages/home/index.tsx:69-91 | refused with the disclaimer message exactly when legal is not accepted or the target is empty; otherwise the payload copies the target, the mode, the three advanced values and the template verbatim, stamped with the given timestamp, and the page goes to the dashboard |
| ScanForm.DisabledIffCannotSubmit | jacksearch/src/pages/home/index.tsx:333 | the disabled-button formula, the handler's early return (line 70) and the gate are the same condition |
| ScanForm.MutatorsPreserveConsistency | jacksearch/src/pages/home/index.tsx:32-66 | every input handler keeps the template equal to the one its mode selects |
| ScanForm.SelectModeInstallsTable | jacksearch/src/pages/home/index.tsx:50-64 | fast shows "Fast Scan Template" with its quick-reconnaissance description, nmap, whois, subfinder and 15–30 minutes; deep shows "Deep Scan Template" with its penetration-testing description, nmap, nikto, dirsearch, metasploit and 2–4 hours |
| ScanForm.SelectModeIdempotent | jacksearch/src/pages/home/index.tsx:47-66 | choosing the same mode twice gives the same form as choosing it once |
| ScanForm.SelectModeLastWins | jacksearch/src/pages/home/index.tsx:47-66 | a later mode choice fully replaces an earlier one, with no merge of templates |
| ScanForm.ToggleAdvancedInvolution | jacksearch/src/pages/home/index.tsx:235 | toggling the panel twice restores the whole form |
| ScanForm.ToggleLegalInvolution | jacksearch/src/pages/home/index.tsx:316 | ticking the checkbox twice restores the whole form |
| ScanForm.SubmittedRequestIsSound | jacksearch/src/pages/home/index.tsx:70-83 | a request sent from a consistent form has a non-empty target and the template of its own mode |
| ScanSession.Step | jacksearch/src/pages/home/index.tsx:69-91 | each event applies its own handler to the form: target edit, mode choice, panel toggle, checkbox, and the three advanced edits while the panel is shown; edits to the advanced inputs change nothing while the panel is hidden, since the page renders those inputs only when it is shown (line 246); a start press never changes the form and appends exactly one snapshot request iff the gate is open; other events send nothing |
| ScanSession.Run | jacksearch/src/pages/home/index.tsx:69-91 | over a session, requests are only appended, never removed or rewritten, and at most one per event |
| ScanSession.Start | jacksearch/src/pages/home/index.tsx:32-44 | a session begins on the freshly rendered form, consistent and with its gate closed, with nothing sent |
| ScanSession.FreshSessionSendsOnlySoundRequests | jacksearch/src/pages/home/index.tsx:32-83 | from the fresh page, after any events, the form is still consistent and every request sent has a target and its mode's template |
| ScanSession.SentTemplatesDetermineModes | jacksearch/src/pages/home/index.tsx:75-83 | among the requests a session sends, two with the same template always carry the same mode |
| ScanSession.RunPreservesConsistency | jacksearch/src/pages/home/index.tsx:33-66 | after any sequence of user events the template is still the one the mode selects |
| ScanSession.RunSendsOnlySoundRequests | jacksearch/src/pages/home/index.tsx:69-83 | every request a session sends has a non-empty target and its mode's template |
| ScanSession.RunPanelParity | jacksearch/src/pages/home/index.tsx:235 | panel visibility is the starting value flipped once per panel toggle |
| ScanSession.RunLegalParity | jacksearch/src/pages/home/index.tsx:316 | legal acceptance is the starting value flipped once per checkbox click |
| ScanSession.RunTargetIsLastEdit | jacksearch/src/pages/home/index.tsx:127 | the target is the text of the last target edit, or the starting target if there was none |
| ScanSession.RunModeIsLastChoice | jacksearch/src/pages/home/index.tsx:47-66 | the mode is the last one chosen and the template is that mode's template |
| ScanSession.RunKeepsAdvancedWithoutEdits | jacksearch/src/pages/home/index.tsx:234-297 | without edits to them, the advanced values survive any events, including any number of panel toggles |
| ScanSession.ResubmitSendsTwice | jacksearch/src/pages/home/index.tsx:69-91 | two start presses with the gate open send two requests differing only in timestamp; there is no deduplication |
| ScanScenarios.TargetAndLegalOpenGate | jacksearch/src/pages/home/index.tsx:70 | the fresh form cannot start; after entering example.com and ticking the checkbox it can |
| ScanScenarios.FastScanIsSent | jacksearch/src/pages/home/index.tsx:47-83 | a fast scan on example.com is sent with mode fast, that target and the fast template |
| ScanScenarios.EmptyTargetIsRefused | jacksearch/src/pages/home/index.tsx:70-73 | an empty target is refused with the disclaimer message even when legal is accepted |
| ScanScenarios.UnsetModeIsSent | jacksearch/src/pages/home/index.tsx:70-83 | the gate ignores the mode, so a request with no mode is sent with no template |
| ScanScenarios.BlankTargetIsSent | jacksearch/src/pages/home/index.tsx:70 | the gate does not trim, so a one-space target passes |
| ScanScenarios.NonNumericDurationIsSent | jacksearch/src/pages/home/index.tsx:287-292 | the max-duration handler itself performs no numeric check: whatever text it receives reaches the request unchanged |

## Left out

- Rendering (JSX, CSS classes, icons, lines 93-348): presentation only. The preview's use of tool names as keys is kept as the `ToolsDistinct` property.
- The success notification: the code waits on a one-second timer, then shows an alert naming the target and mode (lines 87-90). The model returns the request and the dashboard route at once.
- The precondition alert (line 71): modelled only as the message carried by `PreconditionError`.
- `console.log` of the payload (line 85): output only.
- The clock (line 82): the timestamp is a parameter.
- The Cancel button (line 341): it only navigates to the same dashboard route. It has no effect on the form.
- React state batching and closures: framework behaviour. Each user event is modelled as one atomic step.
- ScanForm.SetMaxDuration: the input is declared `type="number"` (line 289). The browser's value sanitisation for number inputs is not modelled, so the model admits any string, where the page hands the handler only "" or a valid number string.
- ScanSession.Step: the one-second timer and the move to the dashboard after a successful start (lines 87-90) are not modelled. The session keeps accepting events after a start, whereas the page unmounts the form one second later. Presses within that second, as in `ResubmitSendsTwice`, are within the model.
- `jacksearch/src/components/Navbar.tsx`: static markup with no state.
- `jacksearch/src/routes.tsx`: a declarative, lazily loaded route table.
