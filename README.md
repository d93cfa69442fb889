# Contact uplink of the portfolio site, in Dafny

This project models the only part of the portfolio site that has logic worth
stating: the contact-form submission pipeline (`SecureUplink.transmit` and
`purge` in `utils/secureUplink.ts`), the form component that drives it
(`components/ContactTerminal.tsx`), and the two text formatters of the audit
panel (`components/TerminalAudit.tsx`).

The pipeline runs its stages in order and stops at the first one that answers:

1. A filled honeypot field (`_honey`) gets a fake success (201). The rate
   limit is not touched and nothing is delivered.
2. The sliding-window rate limiter reads the stored timestamps. It drops those
   that are one hour old or older. With 3 or more left it answers 429 and writes
   nothing. Otherwise it appends the current time and writes the list back.
   If reading, parsing or writing the entry throws, it admits the submission
   (it fails open).
3. The schema check answers 400 with the message of the first broken
   constraint, in schema order.
4. The sanitiser removes tag-shaped text from every field.
5. With no service endpoint configured (the shipped setting), the pipeline
   opens a pre-filled mail-compose action and answers 201. Otherwise it POSTs
   the cleaned fields. An ok response gives 201; anything else gives 500.

Modules, one per concern:

- `Wrappers` (`wrappers.dfy`): `Option`.
- `Sanitize` (`sanitize.dfy`): `sanitizeInput` as a pure function on strings.
- `RateLimit` (`rate_limit.dfy`): the window filter, the rate-limit decision
  as a function of the stored entry, and a replay of successive checks.
- `Uplink` (`uplink.dfy`): the schema, the delivery stage, `Pipeline`, the
  whole of `transmit` as a function, and the imperative `CheckRateLimit`,
  `Transmit` and `Purge`. These work on a `LocalStore` object, which stands
  for the browser's storage entry and is proved to agree with `Pipeline`.
- `ContactTerminal` (`contact_terminal.dfy`): the component as a class with
  `formState`, `logs` and `formData`. `handleSubmit` is split at its `await`
  into `BeginSubmit` and `Settle`.
- `TerminalAudit` (`terminal_audit.dfy`): the ten-cell progress bar and the
  hex checksum.

The clock, the storage write's success, the configured URL, the e-mail check
and the service call come in as parameters (`Uplink.Env`). The stored entry is
`Some(list)` when it reads as a list of integers. A missing entry reads as the
empty list, so it is `Some([])`. The entry is `None` when reading or parsing
it throws.

## Model

| member | source | states |
|---|---|---|
| `Sanitize.SanitizeInput` | utils/secureUplink.ts:35-41 | the second replacement, whose callback returns each matched character, changes nothing, so the result is the tag stripping alone |
| `Sanitize.StripTags` | utils/secureUplink.ts:37 | the global replace of `<[^>]*>`: a `<` with a later `>` is removed up to the first such `>`, other characters are kept in order; the result is never longer than the input |
| `Sanitize.SanitizeIsSubsequence` | utils/secureUplink.ts:37 | the sanitised text is a subsequence of the input: characters are only deleted, never added or reordered |
| `Sanitize.SanitizeLeavesNoTag` | utils/secureUplink.ts:37 | the output has no `<` followed anywhere later by a `>` |
| `Sanitize.SanitizeKeepsPlainText` | utils/secureUplink.ts:37 | a text with nothing tag-shaped in it comes back unchanged |
| `Sanitize.SanitizeIdempotent` | utils/secureUplink.ts:35-41 | sanitising twice equals sanitising once |
| `Sanitize.SanitizeElement` | utils/secureUplink.ts:37 | `<name>content</name>rest` with no `<` in the content becomes the content followed by the sanitised rest, e.g. `<script>alert(1)</script>hello` gives `alert(1)hello` |
| `RateLimit.Prune` | utils/secureUplink.ts:51 | a timestamp survives iff it was stored and `now - t` is under one hour; the list never grows |
| `RateLimit.PruneDropsNothingIffAllLive` | utils/secureUplink.ts:51 | the filter drops nothing iff every stored stamp is still live |
| `RateLimit.WindowEdge` | utils/secureUplink.ts:51 | a stamp exactly one window old is dropped; one a millisecond younger is kept |
| `RateLimit.Check` | utils/secureUplink.ts:44-63 | an unreadable entry admits and stays as it was; otherwise admitted iff fewer than 3 stamps are live; a rejection or a failed write leaves the entry as it was; a persisted admission stores the live stamps followed by `now`, at most 3 and all live |
| `RateLimit.CheckKeepsEntrySmall` | utils/secureUplink.ts:53-59 | an entry of at most 3 stamps still has at most 3 after any check, whatever the clock says |
| `RateLimit.ThrottleAfterMax` | utils/secureUplink.ts:44-63 | starting from an empty or purged entry, of any run of submissions within one window exactly the first 3 are admitted and every later one is throttled |
| `Uplink.FirstIssue` | utils/secureUplink.ts:27-32 | no issue iff every schema constraint holds; otherwise the reported issue is broken and every constraint before it in schema order holds |
| `Uplink.IssueText` | utils/secureUplink.ts:28-31 | the custom messages of the schema, and Zod's default wording for the limits that have none; never empty |
| `Uplink.IssueTextsDistinct` | utils/secureUplink.ts:28-31 | different broken constraints are reported with different texts |
| `Uplink.Contains` | utils/secureUplink.ts:102 | `includes` is true iff the part occurs at some index of the URL |
| `Uplink.Configured` | utils/secureUplink.ts:102 | the endpoint counts as configured iff the URL is non-empty and the placeholder occurs at no index of it |
| `Uplink.Clean` | utils/secureUplink.ts:88-97 | every sanitised field of the outgoing payload is free of tag-shaped text |
| `Uplink.MailBody` | utils/secureUplink.ts:106 | the compose body starts with `IDENTITY: ` and the sanitised name, and ends with the sanitised message verbatim |
| `Uplink.FailureReply` | utils/secureUplink.ts:124-133 | the 500 text starts with `ERR_TRANSMISSION: ` and carries the service's error or the network failure's reason verbatim when it is non-empty, falling back to "Server rejected payload" or "Signal lost" |
| `Uplink.Pipeline` | utils/secureUplink.ts:66-135 | the status is always 201, 429, 400 or 500; something is delivered (mail client or POST) iff the honeypot is empty, the rate limit admits and the schema holds |
| `Uplink.HoneypotIsSilent` | utils/secureUplink.ts:71-73 | a filled honeypot gives 201 with the stored entry unchanged and no delivery |
| `Uplink.SlotUsedBeforeValidation` | utils/secureUplink.ts:76-85 | without a honeypot hit, the entry afterwards is the rate limiter's whatever the later stages answer, so a 400 still uses up a slot; 429 iff the limiter rejects |
| `Uplink.ValidationReportsFirstIssue` | utils/secureUplink.ts:81-85 | a 400 carries `ERR_VALIDATION: ` and the first issue's text, and that issue is never the honeypot's |
| `Uplink.RejectedWith` | utils/secureUplink.ts:81-85 | an admitted submission whose first issue is `i` gets exactly 400 with `i`'s text |
| `Uplink.EmptyIdentityReportedFirst` | utils/secureUplink.ts:27-32 | an empty identity with a short message is reported as "Identity too short" |
| `Uplink.FrequencyReportedAfterIdentity` | utils/secureUplink.ts:27-32 | with an identity of valid length and a bad address, the address issue comes first whatever the message |
| `Uplink.BadAddressReported` | utils/secureUplink.ts:27-32 | such a submission is answered 400 "Invalid frequency format" |
| `Uplink.DeliveryStage` | utils/secureUplink.ts:102-129 | no endpoint configured gives 201 REDIRECTING and a compose action to the fallback address; otherwise the cleaned payload is POSTed, 201 iff the service accepts it and 500 otherwise |
| `Uplink.ShippedConfigUsesFallback` | utils/secureUplink.ts:23 | the shipped empty URL, and any URL holding the placeholder, count as unconfigured |
| `Uplink.PipelineKeepsEntrySmall` | utils/secureUplink.ts:53-59 | no submission makes the stored entry exceed 3 stamps |
| `Uplink.Chain` | utils/secureUplink.ts:44-83 | successive calls, each starting from the stored entry the previous one left, give one reply per call |
| `Uplink.Session` | utils/secureUplink.ts:66-135 | a run of transmits, each reading the entry the previous one left, yields one reply per submission |
| `Uplink.PipelineFollowsLimiter` | utils/secureUplink.ts:71-78 | a legitimate transmit whose write succeeds is answered 429 exactly when the rate limiter rejects, and leaves behind the entry the rate limiter wrote |
| `Uplink.ChainAt` | utils/secureUplink.ts:44-78 | for any step that behaves so, the k-th legitimate call of a run is answered 429 exactly when the k-th replayed rate-limit check rejects |
| `Uplink.SessionAt` | utils/secureUplink.ts:44-78 | the k-th legitimate submission of a session is answered 429 exactly when the k-th replayed rate-limit check rejects |
| `Uplink.SessionFollowsReplay` | utils/secureUplink.ts:44-83 | for legitimate submissions whose writes succeed, a transmit is answered 429 exactly where the rate limiter alone, replayed at the same times, rejects |
| `Uplink.ThrottledAfterPurge` | utils/secureUplink.ts:44-83 | after a purge, of any run of legitimate submissions within one hour the first 3 are never answered 429 and every later one is |
| `Uplink.LocalStore.constructor` | utils/secureUplink.ts:47-50 | a fresh store holds no entry, which reads as the empty list |
| `Uplink.CheckRateLimit` | utils/secureUplink.ts:44-63 | the step-by-step check returns the verdict and leaves the entry exactly as `RateLimit.Check` says |
| `Uplink.Transmit` | utils/secureUplink.ts:66-135 | the step-by-step pipeline returns the response and effect, and leaves the entry, exactly as `Pipeline` says; a honeypot hit changes nothing in storage |
| `Uplink.Purge` | utils/secureUplink.ts:137-140 | answers 200 `LOCAL_CACHE_PURGED` and leaves an empty entry |
| `ContactTerminal.Prefix` | components/ContactTerminal.tsx:19 | error gives ERR, success gives OK, warning gives WARN, and anything else gives SYS |
| `ContactTerminal.Colour` | components/ContactTerminal.tsx:20 | red iff error, bright green iff success, amber iff warning; anything else gets the dimmed green |
| `ContactTerminal.PrefixDistinguishesTypes` | components/ContactTerminal.tsx:19 | different log types get different tags |
| `ContactTerminal.Entry` | components/ContactTerminal.tsx:21 | the log line ends with the message, verbatim |
| `ContactTerminal.SettledState` | components/ContactTerminal.tsx:41-53 | the form ends in SUCCESS iff the call returned status 201; any other status and a thrown exception give ERROR |
| `ContactTerminal.SettledLogs` | components/ContactTerminal.tsx:41-53 | one or two lines are logged, the last ending with the response's message |
| `ContactTerminal.HoneypotShowsSuccess` | components/ContactTerminal.tsx:39-44 | end to end: a filled honeypot always shows SUCCESS |
| `ContactTerminal.SuccessMeansAcceptedOrSilenced` | components/ContactTerminal.tsx:39-49 | end to end: SUCCESS iff honeypot hit, or admitted, valid, and either redirected to the mail client or accepted by the service |
| `ContactTerminal.Terminal.constructor` | components/ContactTerminal.tsx:7-16 | the form starts IDLE with an empty log and empty fields |
| `ContactTerminal.Terminal.AddLog` | components/ContactTerminal.tsx:18-22 | exactly one line is appended and the earlier lines are unchanged |
| `ContactTerminal.Terminal.BeginSubmit` | components/ContactTerminal.tsx:30-37 | nothing happens while SENDING; otherwise the form becomes SENDING and logs the start line |
| `ContactTerminal.Terminal.Settle` | components/ContactTerminal.tsx:41-54 | the form takes `SettledState` and the log grows by `SettledLogs` |
| `ContactTerminal.Terminal.HandleSubmit` | components/ContactTerminal.tsx:30-55 | while SENDING nothing changes, storage included; otherwise the stored entry, the form state and the log are what the pipeline's outcome dictates |
| `ContactTerminal.Terminal.Reset` | components/ContactTerminal.tsx:75 | the form returns to IDLE with all four fields empty |
| `ContactTerminal.Terminal.SetHoney` | components/ContactTerminal.tsx:88 | only the honeypot field changes |
| `ContactTerminal.Terminal.SetIdentity` | components/ContactTerminal.tsx:101 | only the identity field changes |
| `ContactTerminal.Terminal.SetFrequency` | components/ContactTerminal.tsx:115 | only the address field changes |
| `ContactTerminal.Terminal.SetMessage` | components/ContactTerminal.tsx:129 | only the message field changes |
| `TerminalAudit.Row` | components/TerminalAudit.tsx:20-24 | `n` cells, each full or empty, cell `i` full iff `i` is below the filled count |
| `TerminalAudit.ProgressBar` | components/TerminalAudit.tsx:19-27 | exactly 10 cells between brackets, the full ones forming a prefix |
| `TerminalAudit.FullCells` | components/TerminalAudit.tsx:21 | the bar shows `floor(value/10)` full cells clamped to [0,10]; for a percentage in [0,100] exactly `floor(value/10)` |
| `TerminalAudit.DataBars` | components/TerminalAudit.tsx:11-17 | the two rows with bars (95 and 90) each show 9 full cells |
| `TerminalAudit.Checksum` | components/TerminalAudit.tsx:37 | `"0x"` followed by the uppercase hex of the value, padded to at least eight places: at least ten characters, starting with `0x` |
| `TerminalAudit.ChecksumIsDigits` | components/TerminalAudit.tsx:37 | for every 32-bit value the checksum is `0x` followed by its eight uppercase hex digits, leading zeros included |
| `TerminalAudit.ChecksumRoundTrip` | components/TerminalAudit.tsx:37 | the checksum has length 10, starts with `0x`, has only uppercase hex digits after it, and those read back in base 16 as the value |
| `TerminalAudit.ChecksumOnto` | components/TerminalAudit.tsx:37 | every eight-digit uppercase hex text is the checksum of the value it reads as |
| `TerminalAudit.InitialIsZero` | components/TerminalAudit.tsx:31 | the initial `0x00000000` is the checksum of 0 |

## Notes on the source

- Status codes: the honeypot answer is 201 in this source, and delivery is by
  an HTTP relay with a mailto fallback. No database-insert variant of the
  pipeline is part of this model.
- Stale stamps: a rejected check does not rewrite the entry, so stale stamps
  stay stored until the next admitted submission. Only the in-memory copy is
  pruned on every access. The model follows the code here.
- `transmit` catches every exception inside its body, so it always settles
  with a response. The form's `catch` branch is modelled through
  `Settle(Threw(...))`, but `HandleSubmit` never reaches it.
- Checksum range: `Math.floor(Math.random() * 4294967295)` never yields
  4294967295, so `0xFFFFFFFF` is never shown. The lemmas hold for every value
  below 2^32.

## Left out

- The service call (`fetch`, `response.json()`), the mailto navigation
  (`window.location.href`) and `encodeURIComponent`: these are browser and
  network I/O. The call is the `Env.post` oracle. The compose action is
  returned as an `Effect` carrying the unencoded subject and body.
- The `metadata` of the outgoing payload (`navigator.userAgent` and an ISO
  timestamp): these are environment reads, and the payload is modelled
  without them.
- `Date.now()` and the log's `toISOString()` clock: these are parameters
  (`Env.now`, `clock`).
- `localStorage` and `JSON.parse`/`stringify`: the entry is an
  `Option<seq<int>>`. A stored list of non-numbers, whose comparisons are NaN
  in the source, is not represented.
- `purge` when storage itself throws: the source then rejects its promise.
  The model assumes the removal succeeds.
- Zod's e-mail regular expression: this is a foreign library, so it is the
  `Env.isEmail` oracle. The default messages of the `max` constraints follow
  Zod 3's English wording.
- String lengths: Zod counts UTF-16 code units, while the model counts
  characters. The two differ only for characters outside the Basic
  Multilingual Plane.
- `Uplink.Transmit`: the call is synchronous in the model, and the
  read-prune-append of `checkRateLimit` is atomic. Interleavings between
  tabs are not modelled. Two tabs that read the same entry before either
  writes can admit more than 3 submissions per hour, so
  `ThrottledAfterPurge` and `PipelineKeepsEntrySmall` hold for one tab only.
  The re-entry window of the form while the call is awaited is represented by
  calling `BeginSubmit` and `Settle` separately.
- Rendering: the JSX, `dangerouslySetInnerHTML`, the auto-scroll effect, the
  disabled button, and hiding the form in SUCCESS are not modelled. `Reset`
  and `HandleSubmit` are modelled on their handler code alone.
- `TerminalAudit`: the random source, the `hovered` state and the interval
  timer are not modelled. `ProgressBar` takes an integer, which is what every
  row passes.
- `console.log`/`console.warn`/`console.error`: these have no effect on the
  outcome.
- `utils/supabaseClient.ts`: it is a thin wrapper over an external client.
- The decorative components (3D scenes and shaders, cursors, text effects,
  tickers, `BlockProgress`, layout and static data): they are floating-point
  animation and rendering with no state the pipeline depends on.
