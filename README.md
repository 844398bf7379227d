# ra-ticket-checker: the availability watcher, in Dafny

A model of the core of a ticket watcher. The watcher loads one event page, and waits
a fixed interval between the end of one check and the start of the next. It decides from the tickets iframe whether any configured ticket
tier is open. It keeps one boolean of state and calls the WhatsApp notifier
on each false-to-true change of that state. A send that throws leaves the
state false, so the next true reading calls the notifier again, which can
repeat a delivery when the exception came after the request went out. A
skipped send (blank destination or blank credentials) and a send answered
with a non-success status both set the state to true with nothing delivered,
and nothing is retried until the page has read unavailable again.

Four modules, one per source file plus a shared one:

- `Settings` (`settings.dfy`): `Option` (C# `null` and `??`), and the
  configuration keys the three services read, as a record of optional values.
- `Availability` (`availability.dfy`, `Services/Poller.cs`): the tier-class
  extraction loop and the `closed` verdict. The browser is abstract: a `Page`
  is either loaded, with a lookup from tier name to class attribute, or failed.
- `Notifications` (`notifications.dfy`, `Services/Notifier.cs`): the
  configuration normalisation, the two guard clauses, and the
  `HttpRequestMessage`. The message is built the way the source builds it: its
  content and headers are assigned in place on a class instance. The HTTP
  transport is a function parameter that returns a status and body, or throws.
- `Polling` (`polling.dfy`, `Services/PollingHostedService.cs`): the
  `PollingHostedService` class with its one mutable field `lastKnownAvailable`.
  One loop iteration is `Iterate`, and the loop is `ExecuteAsync`. Both are
  proved against the pure step function `Step` and its trace extensions
  `StateAfter` and `AttemptFlags`. The trace properties are lemmas about those
  functions.

Ways the code differs from what its own comments describe. The model follows
the code in each case:

- The doc comment at `Services/Notifier.cs:9-13` promises a wrapper-first
  delivery with an HTTP fallback. Only the direct HTTP path exists, so there is
  no primary/secondary chain. There is one destination number, not a recipient
  list.
- The source does not build as written. `Services/PollingHostedService.cs:37`
  calls `SendAsync` with a message text and a token, but `Notifier.SendAsync`
  has one parameter, a cancellation token (`Services/Notifier.cs:33`), so the
  C# compiler rejects the call (error CS1501). The model reads the call as
  `SendAsync(stoppingToken)`; the notifier always sends the fixed
  `hello_world` template.
- Detection compares each tier's `class` attribute with `closed`. There are no
  keyword lists.
- A falling edge is not reported to anyone. It only clears the state.

Details of the modelled behaviour:

- Without a `TargetUrl` setting the navigation throws on every check, so the
  service never notifies (`MissingTargetUrlFails`, `NoTargetUrlNeverNotifies`).
- A tier whose element never appears makes Playwright's `GetAttributeAsync`
  time out and throw. The whole check then fails, and the watcher leaves its
  state alone (`MissingTierFailsCheck`). A missing class attribute counts as
  open.
- An access token that is not blank but holds a carriage return or a line
  feed (say `"abc\n"`) passes the credentials guard, yet System.Net.Http
  refuses it as the `Authorization` header value and throws before any
  request is sent (`Services/Notifier.cs:72`). The watcher catches that, so
  its state stays false and every true reading calls the notifier again,
  with nothing ever sent (`UnsafeTokenNotifiesEveryTrueReading`).
- The notifier's skip paths do not throw. So on a rising edge with a blank
  destination or blank credentials, the watcher still records "available",
  although no request was made (`SkippedSendStillLatches`).
- `new StringContent(json, Encoding.UTF8, "application/json")` gives the
  content the header `application/json; charset=utf-8`. The later assignment
  at `Services/Notifier.cs:73` replaces it with a bare `application/json`. The
  model keeps both steps, and the request it sends carries no charset.
- White space is that of `char.IsWhiteSpace`: U+0009 to U+000D, U+0020, U+0085,
  U+00A0, U+1680, U+2000 to U+200A, U+2028, U+2029, U+202F, U+205F and U+3000.

## Model

| member | source | states |
|---|---|---|
| `Availability.AnyNotClosed` | Services/Poller.cs:76 | The `Any(c => c != "closed")` test is true iff some class string in the list differs from `closed`. |
| `Availability.ExtractTierClasses` | Services/Poller.cs:84-96 | The extraction succeeds iff every tier's lookup answers. It then returns exactly one class string per tier name, in the same order, with a null attribute recorded as `""`. |
| `Availability.CheckAsync` | Services/Poller.cs:64-82 | The check equals the reference definition. It faults when there is no target URL, or when the page or any tier lookup fails. Otherwise it reports available iff some tier's class string is not exactly `closed`. |
| `Availability.AvailableWitness` | Services/Poller.cs:76-79 | One found tier that is not exactly `closed` makes the page available, whatever the other tiers say. |
| `Availability.NullClassCountsAvailable` | Services/Poller.cs:91-92 | A tier with no class attribute is recorded as `""`, and so makes the page available. |
| `Availability.CompoundClassCountsAvailable` | Services/Poller.cs:76 | The comparison is exact string equality, so the class `"closed x"` counts as available. |
| `Availability.AllClosedUnavailable` | Services/Poller.cs:76-81 | When every tier's class is exactly `closed`, the verdict is unavailable. |
| `Availability.NewPoller` | Services/Poller.cs:15-21 | The target URL is kept as given, null included. A missing `TierNames` section becomes `[]`, and a present one is kept. |
| `Availability.MissingTierNamesUnavailable` | Services/Poller.cs:20 | A missing `TierNames` section becomes the empty list, and with no tiers the verdict is unavailable. |
| `Availability.MissingTargetUrlFails` | Services/Poller.cs:19 | A missing `TargetUrl` setting makes every check fail, whatever the page shows. |
| `Availability.MissingTierFailsCheck` | Services/Poller.cs:90-91 | A tier lookup that times out makes the whole check fail, even when another tier is open. |
| `Notifications.NewNotifier` | Services/Notifier.cs:23-31 | The destination number keeps its null. A missing access token or sender id becomes `""`, and a present one is kept. |
| `Notifications.BlankExamples` | Services/Notifier.cs:35 | Null, `""` and white-space-only strings count as blank. A phone number does not. |
| `Notifications.HttpRequestMessage.constructor` | Services/Notifier.cs:66 | A new request message has the given method and URL, and no content or headers yet. |
| `Notifications.NewMessagesRequest` | Services/Notifier.cs:52-73 | Content and headers are assigned step by step. The build raises (modelled as `null`) iff the token holds CR or LF. Otherwise the finished message is the direct request: a POST to the messages URL string, the template payload, a bearer header, and a Content-Type with no charset. |
| `Notifications.SendOutcomeOf` | Services/Notifier.cs:33-50 | Guard chain: a blank destination skips. Otherwise a blank token or sender id skips. Otherwise a token holding CR or LF is refused and raises with no request. Otherwise the direct request is sent and its result recorded. The four cases are iff their conditions. |
| `Notifications.SendUsingHttpClientAsync` | Services/Notifier.cs:44-85 | The method's outcome equals the reference: the credentials skip, the refused header value with no request, or one request built in place and handed to the transport. |
| `Notifications.SendAsync` | Services/Notifier.cs:33-42 | The method's outcome equals the reference guard chain. |
| `Notifications.UrlRoundTrip` | Services/Notifier.cs:53 | The URL string `https://graph.facebook.com/v24.0/` + id + `/messages` built at line 53 and the parser `SenderIdOfUrl` are inverse, in both directions. |
| `Notifications.UrlInjective` | Services/Notifier.cs:53 | Two sender ids never share a messages URL string as built at line 53 (before any `Uri` parsing). |
| `Notifications.DirectRequestShape` | Services/Notifier.cs:53-73 | Every direct request is a POST whose URL string, as built at line 53, names the configured sender id. Its payload is `to` = the configured number, `whatsapp`, `individual`, `template`, `hello_world`/`en_US`, encoded as UTF-8. It has `Content-Type: application/json` and `Authorization: Bearer` with the configured token. |
| `Notifications.MissingCredentialsSkip` | Services/Notifier.cs:29-50 | A missing token or sender id is normalised to `""`. With a destination set, it takes the credentials skip and no request is made. |
| `Notifications.BlankDestinationSkips` | Services/Notifier.cs:35-39 | A blank destination skips with a warning, makes no request, and raises nothing. |
| `Notifications.ExactlyOneRequestWhenConfigured` | Services/Notifier.cs:44-75 | Exactly one request, the direct request, is made when both guards pass and the token holds no CR or LF. Otherwise none is made. |
| `Notifications.LineBreakTokenRaises` | Services/Notifier.cs:46-72 | A token that passes the blank guard but holds a line feed raises before any request, with no log record, whatever the transport would answer. |
| `Notifications.LineBreakTokenExample` | Services/Notifier.cs:46-72 | The token `"abc\n"` passes the blank guard and is not a valid header value. |
| `Notifications.FailedStatusIsOnlyLogged` | Services/Notifier.cs:75-84 | A non-success status is logged as an error and not raised. The call raises iff both guards pass and either the token is refused as a header value or the transport threw. |
| `Polling.Step` | Services/PollingHostedService.cs:30-49 | The state moves only to agree with a reading. It becomes true only on a rising edge whose send did not throw. A failed check, a repeated reading or a false reading attempts no send. A false reading clears the state. After an attempted send, the new state is true iff the send did not throw. |
| `Polling.StateIsLastReading` | Services/PollingHostedService.cs:32-49 | When no send throws, the state after any trace is the last value a check read, or the cold-start value. Failed checks never move it. |
| `Polling.RisingEdgesOnly` | Services/PollingHostedService.cs:34-44 | When no send throws, iteration i calls the notifier iff it reads true and the last reading before it was false. |
| `Polling.CleanRisingEdges` | Services/PollingHostedService.cs:34-44 | Over plain readings, iteration i notifies iff it reads true and the previous reading, or the start state, was false. |
| `Polling.ExampleTrace` | Services/PollingHostedService.cs:28-52 | From the cold start, the readings F,F,T,T,F,T notify at the 3rd and 6th iterations only. |
| `Polling.StaysAvailable` | Services/PollingHostedService.cs:34-44 | Once the state is true, it stays true while no check reads false. |
| `Polling.NoRepeatWithoutFalse` | Services/PollingHostedService.cs:34-44 | Between two notifications, the first of which did not throw, some check read false. |
| `Polling.SendFaultRetries` | Services/PollingHostedService.cs:37-49 | A send that throws leaves the state false, so the next true reading calls the notifier again. |
| `Polling.PollingHostedService.constructor` | Services/PollingHostedService.cs:14-22 | The service starts unavailable. The interval is `PollIntervalSeconds`, or 60 when that key is absent. |
| `Polling.PollingHostedService.Iterate` | Services/PollingHostedService.cs:30-49 | One loop body, with the real check and send inside the fault boundary. It calls the notifier and updates `lastKnownAvailable` exactly as `Step` says. |
| `Polling.PollingHostedService.ExecuteAsync` | Services/PollingHostedService.cs:28-52 | The loop's per-iteration notifier calls, and its final state, are those of `AttemptFlags` and `StateAfter` over the observed ticks. |
| `Polling.SkippedSendStillLatches` | Services/PollingHostedService.cs:37-38 | On a rising edge with a blank destination or blank credentials, no request is made, yet the state becomes true. |
| `Polling.FailedStatusStillLatches` | Services/Notifier.cs:77-84 | On a rising edge whose request was sent (token a valid header value) and answered with a non-success status, the state becomes true although nothing was delivered, and the next true reading does not call the notifier. |
| `Polling.ThrowingSendsNeverLatch` | Services/PollingHostedService.cs:34-49 | When every send throws, the state after any trace from the cold start is false, and iteration i calls the notifier iff it reads true. |
| `Polling.UnsafeTokenNotifiesEveryTrueReading` | Services/Notifier.cs:72 | With a token refused as a header value, the state never becomes true, every true reading calls the notifier, and no call makes a request. |
| `Polling.FaultsAreQuiet` | Services/PollingHostedService.cs:46-49 | A trace in which every check fails never calls the notifier and ends in its start state. |
| `Polling.NoTargetUrlNeverNotifies` | Services/Poller.cs:19 | Without a `TargetUrl` setting, no iteration of any trace calls the notifier, and the state stays at its start value. |
| `Polling.TransportFaultKeepsUnavailable` | Services/PollingHostedService.cs:37-49 | On a rising edge whose HTTP transport throws, the notifier is called and the state stays false. |

## Left out

- Browser automation (`Services/Poller.cs:25-71`, `98-152`): launch options,
  context setup, navigation, random delays, mouse movement, the iframe wait and
  the stealth script. Each is I/O against an external page. Any failure in it is
  modelled as `PageFault`, and the iframe's tier lookups as an opaque function.
- The tier selector `li:has-text("…")` with `.Last`. Which element a tier name
  selects is part of the opaque lookup.
- JSON serialisation, the `HttpClient` transport and the reading of the
  response body (`Services/Notifier.cs:52`, `65`, `75-76`). The payload is a
  record, and the transport is a function from request to status and body, or
  to an exception.
- The parsing of the URL string into a `System.Uri` by `new HttpRequestMessage`
  (`Services/Notifier.cs:66`): escaping, dot-segment removal, and the split
  into query and fragment. The request's URL is modelled as the string built
  at line 53. Only blankness of the phone-number id is checked
  (`Services/Notifier.cs:46`), so ids such as `1/../2` and `2` reach the same
  `Uri`, and an id containing `?` or `#` moves `/messages` out of the path;
  the URL lemmas are about the string, not the parsed `Uri`.
- `NewMessagesRequest`, `SendOutcomeOf`, `SendUsingHttpClientAsync`,
  `ExactlyOneRequestWhenConfigured`: the `UriFormatException` that
  `new HttpRequestMessage` raises at `Services/Notifier.cs:66` for a URL the
  `Uri` parser rejects (an over-long one, say) is not modelled. The model
  treats every messages URL string as accepted. Of the header checks, only the
  CR/LF rule for the token is modelled (`HeaderSafe`); any other refusal of a
  header value by System.Net.Http is outside the model. Where System.Net.Http
  raises the CR/LF refusal, at the assignment at line 72 or when the request
  is written, does not change what is modelled: an exception, and no request
  sent.
- Logging text, and the `DateTime.UtcNow` message text at
  `Services/PollingHostedService.cs:37`. Only the log level of the notifier's
  outcome is modelled.
- `Task.Delay` and cooperative cancellation (`Services/PollingHostedService.cs:28`,
  `51`). The loop runs over a finite sequence of observations, and a stop
  request is taken to arrive after the last one. The exception that
  `Task.Delay` raises on cancellation, on a negative interval, or on an
  interval above 4294967 seconds (more than `uint.MaxValue - 1`
  milliseconds), is outside the model. `intervalSeconds` is an unbounded
  integer, where the source's `int` is 32 bits wide.
- Reading configuration: key lookup, case-insensitive keys, list binding of
  `TierNames`, and the exception for a non-integer `PollIntervalSeconds`. The
  configuration is given as a record of optional values.
- `Program.cs`: dependency-injection registration, configuration
  sources and logging setup. The WhatsApp wrapper it registers is never used.
- The wrapper-first delivery path promised at `Services/Notifier.cs:9-13`. It
  does not exist in the code.
