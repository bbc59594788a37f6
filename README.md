# logm in Dafny

A model of the core of `logm`: a small Go library of structured-logging helpers on top of `slog`. The model has three parts:

* **The log-assertion matcher of `logmtest`.** A `Recorder` collects what a logger writes. `Expect` replays the recorded lines, in arrival order, against a list of expectations. Each line claims the first expectation, not yet matched, whose pattern is a literal substring of the line. Expect fails at once in two cases:
  * a line claims nothing, in strict mode;
  * a line claims an expectation listed before the previously claimed one, in ordered mode.

  Otherwise, once every line has been replayed, it reports every expectation still unmatched.
* **The trace context.** A trace has an identifier, an optional span identifier and start/elapsed timing. It can be minted, or derived from a parent identifier found in a context or in the `X-Trace-Id` header. Its root identifier can be stored back into a context. It emits an `id`, `span_id`, `time_elapsed_ms` field list that depends on which fields are set.
* **The HTTP middlewares.**
  * A response-writer wrapper that follows the status and the size.
  * The request log record: `"<status> <method> <path>"` plus the `req`, `resp` and `trace` groups.
  * The panic barrier: panic classification, two records and a 500 response.
  * The propagation interceptor, which puts the trace identifier into the request context.

Modules (one file each):

| module | file | role |
|---|---|---|
| `Wrappers` | wrappers.dfy | `Option` |
| `Text` | text.dfy | `bytes.Contains`, `bufio.ScanLines`, fmt's `%d` |
| `Slog` | slog.dfy | records, attributes, group values |
| `NetHttp` | nethttp.dfy | `context.Context`, `http.Header`, `http.Request` as values |
| `Trace` | trace.dfy | trace.go |
| `Http` | http.dfy | http.go |
| `LogmTest` | logmtest.dfy | logmtest/logger.go |

Things the Go code gets from its environment become parameters:

* **UUID generation** is an oracle. Every operation that draws an identifier takes the drawn value as `uuid`. It is `""` when `uuid.NewRandom` fails, since `newUUID` returns `""` in that case.
* **The clock** is an integer number of nanoseconds, passed in as `now`. `ZeroTime` (0) stands for Go's zero `time.Time`. `time.Since` saturates to the int64 range (`Trace.Sub`). `Duration.Milliseconds` truncates toward zero (`Trace.Milliseconds`).
* **The handler wrapped by a middleware** appears as what it does:
  * the sequence of `Write`/`WriteHeader` calls it makes (`Http.Action`), with the byte count and error the underlying writer reports for each `Write`;
  * or the value `recover` returns after it ran (`Option<Http.PanicValue>`).
  * `debug.Stack()` is the parameter `stack`.
* **Byte slices** are `string`, one `char` per byte.

The matcher is imperative, as in the source:
* `Recorder` is a class whose `buf` field is appended to.
* `Contains` sets `ok` in place on an `array<Record>` copied by `NewRecords`.
* `Err` and `Expect` are loops.

Each method is proved equal to a pure reference:
* `FirstMatch` and `Mark` for one line;
* `Replay` for the whole walk over the lines;
* `UnmetErrors` for the final report;
* `Verify` for the result of `Expect`.

The lemmas state the matcher's promises about those references. Errors are tagged values (`Mismatch`), all of the `strconv.ErrRange` class. A `nil` error is the empty sequence.

## Model

| member | source | states |
|---|---|---|
| LogmTest.Expectation | logmtest/logger.go:69-75 | a caller's `Record{Contains: p}` has pattern p and is not yet matched |
| LogmTest.FirstMatch | logmtest/logger.go:86-97 | the lowest index from `from` on whose record is unmatched and has a pattern the line contains; None exactly when there is none |
| LogmTest.Replay | logmtest/logger.go:53-65 | the reference walk of the scan loop over the lines: each line claims its first match; it stops on an unclaimed line unless ExpectUnexpected, and on a backward claim unless ExpectAnyOrder; it keeps the cursor and the claims. The Replay… lemmas state its properties |
| LogmTest.UnmetErrors | logmtest/logger.go:99-107 | the reference for records.Err: the Unmet errors of the records, built from the last record back; UnmetErrorsSound and UnmetErrorsComplete state what it reports |
| LogmTest.Verify | logmtest/logger.go:53-66 | what Expect returns: the error that stops the replay, or else records.Err of the final records; VerifySucceedsIff and VerifyReportsUnclaimed state its meaning |
| LogmTest.Contains | logmtest/logger.go:86-97 | returns the first claimable index with ok=true and sets `ok` on that record alone; with no claimable record returns (0,false) and changes nothing |
| LogmTest.Err | logmtest/logger.go:99-107 | the loop's accumulated errors are exactly the reference report `UnmetErrors` of the records |
| LogmTest.UnmetErrorsSound | logmtest/logger.go:99-107 | every error reported is an `Unmet` of a record not matched, with its index and pattern, and indices strictly increase |
| LogmTest.UnmetErrorsComplete | logmtest/logger.go:99-107 | every record not matched is reported with its index and pattern |
| LogmTest.UnmetErrorsReportsUnmatched | logmtest/logger.go:99-107 | one `Unmet(k, pattern)` per unmatched record, in index order and nothing else; no error exactly when every record is matched |
| LogmTest.NewRecords | logmtest/logger.go:77-81 | a freshly allocated array with the caller's records, so matching cannot alter the caller's list |
| LogmTest.Recorder.constructor | logmtest/logger.go:13-19 | a new recorder has an empty buffer and both flags false |
| LogmTest.Recorder.Write | logmtest/logger.go:36-41 | appends p to the buffer, changes nothing else, and reports len(p) written |
| LogmTest.Recorder.Expect | logmtest/logger.go:43-67 | the early-returning loop over the scanned lines yields exactly `Verify` of the expectations on the buffer's lines under the two flags |
| LogmTest.ReplayKeepsPatterns | logmtest/logger.go:53-65 | a completed replay keeps the number of records and every pattern, and only appends to the claims |
| LogmTest.ClaimStepKeepsOnce | logmtest/logger.go:86-97 | claiming an unmatched record and then, for the rest, claims that are each made once, still gives claims made once each |
| LogmTest.ReplayClaimsEachRecordOnce | logmtest/logger.go:53-65 | a completed replay claims each record at most once, and only if it was unmatched; the records matched at the end are those matched before plus those claimed |
| LogmTest.OrderedClaimsIncrease | logmtest/logger.go:61-64 | in ordered mode a completed replay claims strictly increasing indices, none below the previous claim |
| LogmTest.OrderedSuccessClaimsInOrder | logmtest/logger.go:61-66 | a successful ordered Expect claimed the expectations in strictly increasing list order |
| LogmTest.AnyOrderNeverOutOfOrder | logmtest/logger.go:61-63 | with ExpectAnyOrder no line is ever reported out of order |
| LogmTest.AnyOrderOnlyDropsOrderCheck | logmtest/logger.go:53-64 | ExpectAnyOrder changes nothing but the order check: wherever the ordered replay does not stop on that check, the unordered one ends identically, finishing with the same records and claims or stopping on the same unexpected line |
| LogmTest.TolerantNeverUnexpected | logmtest/logger.go:55-60 | with ExpectUnexpected no line is ever reported as unexpected |
| LogmTest.StrictClaimsEveryLine | logmtest/logger.go:54-60 | in strict mode a replay that finishes had every line claim a record: a line that claims nothing always stops it |
| LogmTest.VerifyReportsUnclaimed | logmtest/logger.go:66 | after a completed replay Expect reports only `Unmet` errors, and reports expectation k exactly when no line claimed it |
| LogmTest.VerifySucceedsIff | logmtest/logger.go:53-66 | Expect returns nil exactly when no line stops the replay and every expectation gets claimed |
| LogmTest.NothingLoggedNothingExpected | logmtest/logger.go:53-66 | nothing written and nothing expected: no error, in every mode |
| LogmTest.StrictFirstLineUnmatched | logmtest/logger.go:55-57 | in strict mode a first line that no expectation matches is reported as unexpected, whatever follows it, and nothing else is reported (so one line logged against none expected fails) |
| LogmTest.ReplayClaimStep | logmtest/logger.go:54-64 | a line that claims index cp, when the order check passes, advances the cursor to cp and marks that record |
| LogmTest.OneLoggedOneExpected | logmtest/logger.go:53-66 | one line containing the one expected pattern: no error |
| LogmTest.OneLoggedTwoExpected | logmtest/logger.go:66 | one line containing the first of two patterns: only the second expectation is reported, with index 1 and its pattern |
| LogmTest.SameExpectationTwice | logmtest/logger.go:88-90 | two expectations of the same pattern: the first line claims only the first; a second line that lacks the pattern finds nothing left to claim and is reported as unexpected (lines [m1, m2] against [m1, m1]) |
| LogmTest.FirstMatchIs | logmtest/logger.go:86-97 | a line claims record k when k is the first record it can claim |
| LogmTest.InOrderLinesClaimAll | logmtest/logger.go:53-65 | when the records before i are matched and the rest are not, lines each containing the pattern at their own position finish the replay with every record matched |
| LogmTest.InOrderSucceeds | logmtest/logger.go:53-66 | any number of lines, each containing the expectation listed at its own position: no error, in either mode |
| LogmTest.WrongOrderFails | logmtest/logger.go:61-63 | the expectations are listed in another order than the lines were logged: the line that claims backwards is reported out of order |
| LogmTest.ReversedPair | logmtest/logger.go:61-64 | two lines claiming two expectations in reverse order: accepted with ExpectAnyOrder, reported out of order without it |
| LogmTest.TolerantSkipsUnmatchedLine | logmtest/logger.go:55-60 | with ExpectUnexpected a line matching nothing is skipped, and the next line still claims the expectation |
| LogmTest.TolerantReportsUnmet | logmtest/logger.go:55-66 | with ExpectUnexpected, skipped lines do not hide an expectation that no line contains: it is reported |
| Text.Contains | logmtest/logger.go:91 | `bytes.Contains`: the empty pattern is in every line, and a contained pattern is no longer than the line; ContainsIffOccurs states its meaning |
| Text.ScanLines | logmtest/logger.go:48-53 | the tokens of a `bufio.Scanner` with ScanLines: none for an empty buffer, at least one otherwise, and no token contains a newline |
| Text.DropCR | logmtest/logger.go:48-53 | bufio's dropCR: removes one trailing carriage return when there is one, and changes nothing else |
| Text.IndexAfterPrefix | http.go:21 | the first occurrence of c in prefix + c + rest is right after the prefix, if the prefix does not contain c |
| Text.ContainsIffOccurs | logmtest/logger.go:91 | the substring test holds exactly when the pattern occurs at some index of the line |
| Text.ScanJoinedLines | logmtest/logger.go:48-53 | scanning lines written one per `\n`, that hold no newline and do not end in a carriage return, gives back exactly those lines |
| Text.IndexOf | logmtest/logger.go:48-53 | the first index of a byte, or -1 when it is absent |
| Text.ParseNatToDecimal | http.go:21 | the `%d` digits of an unsigned number read back to that number |
| Text.NatToDecimal | http.go:21 | decimal digits only, non-empty, no leading zero |
| Text.FormatInt | http.go:21 | `%d`: a minus sign before the digits of the magnitude exactly when the number is negative |
| Slog.Keys | http.go:29-43 | the keys of an attribute list, position by position |
| NetHttp.WithValue | trace.go:102-104 | the child context binds the key to the value and keeps every other binding |
| NetHttp.HeaderGet | trace.go:42-44 | the first value under the name, or "" when there is none |
| NetHttp.WithContext | http.go:97 | the request with only its context replaced |
| Trace.Sub | trace.go:74-76 | `time.Since`: the difference, saturated to the int64 range |
| Trace.Milliseconds | trace.go:74-76 | whole milliseconds, truncated toward zero for negative durations |
| Trace.SpanIds | trace.go:46-55 | for an empty parent, a root named by the drawn identifier with no span; otherwise the parent identifier, with the drawn identifier as span |
| Trace.SpanIffParent | trace.go:46-55 | with a working generator, the derived trace always has an identifier, and has a span identifier exactly when its parent is non-empty |
| Trace.ContextValue | trace.go:32-37 | the string bound to the key; "" when the key is absent or its value is not a string |
| Trace.TraceAttrs | trace.go:88-99 | `id` always comes first; `span_id` is present exactly when the span is non-empty; `time_elapsed_ms` with the stored value is present exactly when the trace was started |
| Trace.Trace.constructor | trace.go:51-54 | a trace literal holds the given identifiers and is neither started nor timed |
| Trace.Trace.Start | trace.go:106-109 | sets the start time to now, and only it |
| Trace.Trace.End | trace.go:73-76 | sets only the elapsed time, to the whole milliseconds since the start |
| Trace.Trace.LogAttrs | trace.go:88-99 | the conditional appends build exactly the `TraceAttrs` list of the current fields |
| Trace.Trace.LogAttr | trace.go:78-81 | the group `trace` over the logAttrs list |
| Trace.Trace.LogValue | trace.go:83-86 | a group value over the same list as LogAttr |
| Trace.Trace.NewContext | trace.go:101-104 | the child context carries the trace identifier, and not the span, under ctxTraceID; every other binding is kept |
| Trace.NewTrace | trace.go:16-19 | a fresh, unstarted root trace named by the drawn identifier, with no span |
| Trace.NewTraceSpan | trace.go:46-55 | a fresh, unstarted trace with the identifiers `SpanIds` gives for the parent |
| Trace.NewTraceFromContext | trace.go:25-30 | NewTraceSpan of the identifier the context carries ("" when it carries none) |
| Trace.NewTraceFromHTTPRequest | trace.go:39-44 | NewTraceSpan of the `X-Trace-Id` header ("" when it is absent) |
| Trace.NewContextRoundTrip | trace.go:28-37 | for a non-empty identifier, re-deriving from the context NewContext made gives back that identifier, with a new span |
| Trace.ContextRoundTrip | trace.go:102-104 | a trace derived from `Background` after NewContext continues the original trace identifier, with the drawn span |
| Trace.ElapsedAtLeastOneMs | trace.go:74-76 | a trace ended at least one millisecond after it started reports at least 1 ms |
| Trace.EndOneSecondLater | trace.go:74-76 | a trace ended one second after its start reports 1000 ms |
| Trace.EndWithoutStartNeverEmitted | trace.go:74-76 | ending a trace that was never started measures a saturated duration from the zero time, and logAttrs does not emit it |
| Http.LogHTTPRequest | http.go:29-36 | the group `req` holds path, method, remote_addr and query, in that order, with the request's values |
| Http.LogHTTPResponse | http.go:38-43 | the group `resp` holds status and then size, with the wrapper's values |
| Http.ResponseWriter.constructor | http.go:45-47 | a new wrapper has status 200, size 0, and has forwarded nothing |
| Http.ResponseWriter.Write | http.go:55-60 | forwards the data and returns what the underlying writer reports; size grows by exactly the reported count, error or not, and the status is untouched |
| Http.ResponseWriter.WriteHeader | http.go:62-66 | forwards the code, sets the status to it, and leaves the size untouched |
| Http.LastWriteHeaderWins | http.go:62-66 | after any sequence of calls, the status is the code of the last WriteHeader, or the initial status if there was none |
| Http.ServeHTTP | http.go:18 | a handler's calls through the wrapper leave the reference status, size and forwarded calls of that sequence |
| Http.Message | http.go:21 | `fmt.Sprintf("%d %s %s")` of the status, method and path; MessageStartsWithStatus states that the status can be read back |
| Http.MessageStartsWithStatus | http.go:21 | the status can be read back from the message: the digits before the first space; the rest is "<method> <path>" |
| Http.LogHandler | http.go:13-27 | the wrapper ends with the status and size of the handler's calls; one Info record "<status> <method> <path>" carries `req`, `resp` and the header-derived trace started before and ended after the handler |
| Http.LogHandlerScenario | http.go:13-27 | a GET of "/" whose handler writes 200 and a 5-byte body over 2 ms: LogHandler emits one Info record "200 GET /" with path "/", status 200, size 5, and a trace whose non-empty drawn identifier and elapsed 2 ms are logged |
| Http.Classify | http.go:74-82 | a string panic becomes an error with that text; an error is kept as it is; any other value becomes "unsupported panic type: …" |
| Http.RecoverHandler | http.go:68-91 | nothing happens without a panic. After one: an Error record with the error text, then a Debug record with the stack, both carrying a fresh root trace under `panic` and the `req` group; then a 500 response with the configured message |
| Http.TraceHandler | http.go:93-99 | the context passed on carries the `X-Trace-Id` header when it is non-empty, otherwise a fresh identifier; the request is otherwise unchanged, header included, and other context bindings are kept |
| Http.TraceHandlerContinuesHeader | http.go:93-99 | behind TraceHandler, a trace derived from the context continues the header's trace identifier |

## Left out

- The `sync.Mutex` of `Recorder` (logmtest/logger.go:38-39, 45-46). Write and Expect are modelled as sequential operations.
- LogmTest.Recorder.Expect: does not model that scanning drains the buffer. The buffer is left unchanged. How much a Go scanner drains on an early return depends on its read chunk size.
- LogmTest.Recorder.Expect: does not model `sc.Err()`. The only error a scanner over a `bytes.Buffer` can report is a line over 64 KiB (`bufio.ErrTooLong`). The model scans lines of any length.
- LogmTest.Err: does not model the error text. It also does not model the shape of the `errors.Join` tree.
  - Each error is kept as its kind, its line or its index and pattern.
  - All of these errors are of the `strconv.ErrRange` class.
- The UUID generator and the wall clock are parameters, `uuid` and `now`. Each call is given its drawn value.
- `logm.go`, `file.go` and `flags.go` are not part of this model. The key strings of flags.go appear as constants.
- Go's `panic`, `recover` and `defer` are not modelled, and neither is the real `debug.Stack`. The outcome of running the wrapped handler is a parameter. A `panic(nil)` is not distinguished: it reads as `None`.
- Http.RecoverHandler: the response in the model is only its status and its body.
  - The body is the message plus the newline that `http.Error` appends.
  - `http.Error`'s content-type and nosniff headers are not modelled.
  - No record is kept of what the handler had written before it panicked.
- Http.Classify: does not render `%#v`. Any other panic value arrives as its rendered text.
- `http.Header.Get` canonicalises the header name. The model looks the name up as given. `X-Trace-Id` is already canonical.
- The slog handler does not appear: neither level filtering nor rendering to text or JSON. The model stops at the record a call builds. A trace given as an attribute value is shown already resolved through its `LogValue`.
- Http.RecoverHandler: responds with `msg` as given, even when it is empty; there is no fallback text.
- Http.TraceHandler: sets only the request context; it does not write the identifier back into the `X-Trace-Id` header.
