# App Engine logger middleware — a Dafny model

This project models the echo middleware of `appengine-log`. It writes two
correlated Cloud Logging streams for each HTTP request:

- an access entry in the module's `_request` log;
- application entries, written through a per-request logger, in the
  module's `_application` log.

Both logs share one `gae_app` monitored resource. The access entry carries
the request's fully qualified trace name and span ID, the same ones the
per-request logger is created with. Its severity is the per-request
logger's `maxSeverity`, read after the handler returns.

The model has four modules:

- `Maybe` (`maybe.dfy`): an `Option` type. It stands for a nil error, an
  absent value or a failed parse.
- `GoStrings` (`gostrings.dfy`): Go's `strings.Split` and `strings.Join`
  for a one-character separator. Split and join are proved to be inverses,
  and the first piece of a split is proved to be the prefix before the first
  separator.
- `Middleware` (`middleware.dfy`): the configuration (`LoggerMiddleware`),
  the `gae_app` resource and its four labels, the two log names, and what
  `Logger` prepares once before it returns its closure (`Hook`). It also
  holds the trace name `projects/<project>/traces/<trace ID>` and the
  remote IP, which is the first comma-separated token of `X-Forwarded-For`.
  `Header.Get`, `Set` and `Del` are modelled on a map from canonical names
  to value lists.
  Each derivation has a partner that reads it back: `MiddlewareOfResource`,
  `ParseLogName` and `TraceIDOf`.
- `Lifecycle` (`lifecycle.dfy`): the per-request closure `Handle`. It is a
  pure function that returns the ordered events of one invocation and how
  the invocation left the closure: returning nil, or with the handler's
  panic. The events are: logger created, level set, handler
  called, error routed to `c.Error`, access entry written. `HandlerCalls`,
  `ErrorCalls` and `AccessEntries` read those events back. `Serve` runs many
  requests through the same closure. The handler may keep state between
  calls, so each request comes with the handler it meets.
  `ServeIsolatesRequests` proves that the closure itself carries nothing
  over from one request to the next.

The wrapped handler is a Dafny function. It receives the request and the
fresh per-request logger. It either returns or panics. When it returns, its
result holds three things:

- its error, if any;
- the logger's maximum severity at that point;
- the request headers as it left them. The closure reads `X-Forwarded-For`
  only after the handler has run, from the request it fetched before, so a
  handler that edits those headers changes the logged remote IP.

When the handler panics, the closure stops after the handler call: no
error is routed, no entry is written, and the panic leaves the closure.
`New` and the rule by which the logger raises its maximum severity are
defined outside this model. So the maximum severity a new logger starts
with is a parameter (`newSeverity`), and the severity after the handler is
whatever the handler reports.

Two details of the code:

- The remote IP is the raw text before the first comma. It is not trimmed,
  so `" 1.2.3.4 ,x"` gives `" 1.2.3.4 "`.
- A failed trace extraction is not handled separately. Its error is
  discarded and the span context extracted anyway is used, so the model
  takes the extracted trace and span IDs as given strings.

## Model

| member | source | states |
|---|---|---|
| GoStrings.Split | middleware.go:71 | splitting always yields at least one piece, so taking the first piece never fails, even for an empty header |
| GoStrings.SplitPieces | middleware.go:71 | splitting on "," yields one more piece than there are commas, and no piece contains a comma |
| GoStrings.SplitHead | middleware.go:71 | the first piece of the split (the one the middleware keeps) is the header's prefix up to its first comma, or the whole header |
| GoStrings.JoinSplit | middleware.go:71 | joining the pieces with "," restores the header exactly, so the split loses nothing |
| GoStrings.SplitJoin | middleware.go:71 | splitting a join of comma-free pieces returns those pieces |
| Middleware.RemoteIP | middleware.go:71 | the remote IP contains no comma, is a prefix of the `X-Forwarded-For` value that ends at a comma or at the end, equals the value when it has no comma, and is "" when the header is absent, empty or has no value |
| Middleware.RemoteIPExample | middleware.go:71 | `X-Forwarded-For: 1.2.3.4, 5.6.7.8` gives remote IP `1.2.3.4` |
| Middleware.CommonResource | middleware.go:44-52 | the shared resource has type `gae_app` and exactly the four labels `module_id`, `project_id`, `version_id` and `zone` |
| Middleware.ResourceRoundTrip | middleware.go:44-52 | each label holds the matching constructor argument, so the configuration can be read back from the resource; a `gae_app` resource with exactly those labels is the resource of the configuration read from it |
| Middleware.LogName | middleware.go:53-54 | a log name is the module ID followed by `_request` or `_application`, and module and kind can be parsed back from it |
| Middleware.ParseLogName | middleware.go:53-54 | a name parses exactly when it ends in one of the two suffixes, and then it is the parsed module plus that suffix |
| Middleware.LogNamesDistinct | middleware.go:53-54 | two log names are equal only for the same module and kind; in particular a module's request and application logs always differ |
| Middleware.Logger | middleware.go:41-54 | both logs share one resource that describes the configuration; they are named after the configured module, one per kind, and they are distinct |
| Middleware.Trace | middleware.go:58 | the trace name built for a project reads back, within that project, to the trace ID it was built from |
| Middleware.TraceRoundTrip | middleware.go:58 | within a project, the trace name `projects/<project>/traces/<id>` and the trace ID determine each other |
| Middleware.TraceInjective | middleware.go:58 | for slash-free trace IDs, the trace name determines both the project and the trace ID |
| Lifecycle.NewRequestLogger | middleware.go:57-62 | the per-request logger writes to the application log, carries the request's trace name and span ID, is at INFO, and starts at the initial maximum severity |
| Lifecycle.Prelude | middleware.go:61-65 | the steps up to the handler call hand the logger to the handler exactly once, route no error and write no entry |
| Lifecycle.ErrorStep | middleware.go:65-67 | the handler's error reaches the framework exactly when there is one, and nothing else happens in that step |
| Lifecycle.AfterHandler | middleware.go:65-85 | after the handler returns, its error (if any) is routed exactly once and otherwise nothing is routed; then exactly one access entry is written last, to the request log, with the logger's final severity, its trace and span, trace sampled, and the first hop of `X-Forwarded-For` in the headers the handler left |
| Lifecycle.OrderAfterPrelude | middleware.go:61-68 | a run starts with logger creation, level setting and the handler call, in that order; the level is set before the handler runs, and the handler runs before any error is routed or any entry is written |
| Lifecycle.Handle | middleware.go:55-88 | one invocation calls the handler exactly once with a fresh INFO logger for this request, after creating the logger and setting INFO; if the handler panics, nothing is routed or written and the panic leaves the closure; otherwise the error is routed exactly when there is one, exactly one access entry is written, last, with the logger's maximum severity after the handler, its trace and span, and the first hop of the headers the handler left, and the closure returns nil |
| Lifecycle.HandleFixedFields | middleware.go:56-85 | the handler gets the fresh logger for the request; an access entry exists only if the handler returned, and it is then the entry for the severity and headers it returned with |
| Lifecycle.RemoteIPReadAfterHandler | middleware.go:56-71 | the remote IP is read after the handler: a handler that sets `X-Forwarded-For` to `10.0.0.1` gets `10.0.0.1` logged, and one that deletes it gets "", whatever the request carried |
| Lifecycle.HandlerIndependentFields | middleware.go:57-85 | for one request, any two handlers get the same logger, and their access entries agree in log, trace, span and sampling flag; two handlers that return with the same headers also get the same remote IP |
| Lifecycle.ConfiguredRun | middleware.go:41-85 | for a configured middleware, the handler's logger writes to `<module>_application`, and every access entry goes to `<module>_request` with a trace naming the configured project and the request's trace ID |
| Lifecycle.ServeIsolatesRequests | middleware.go:55-88 | over a sequence of requests, each met by its own (possibly stateful) handler, the i-th handler call gets exactly the fresh logger for the i-th request, starting from the initial maximum severity; the errors routed and entries written are those of the per-request runs, concatenated in request order |

## Left out

- Clock readings and latency (`time.Now`, `end.Sub(start)`, the entry timestamp): they are wall-clock values and only pass through.
- Response `Status` and `Size`, and the `Request` reference in the access entry: they are copied from the framework unchanged.
- The Cloud Logging client and its `Logger(...)` and `Log(...)` calls: this is foreign I/O. Creating a log is modelled as a `Sink` value, and writing an entry as an `AccessLogged` event.
- The logger's `New`, `SetLevel` and the update of `maxSeverity`: they are defined in a file that is not part of this model. The initial maximum is a parameter, and the final maximum is part of the handler's result.
- The application entries the per-request logger writes: they come from the logger file that is not part of this model.
- `propagation.HTTPFormat.SpanContextFromRequest` and the hex rendering of trace and span IDs: this is a foreign library. Its result is given as two strings, and its error is ignored as in the code.
- `contextLogger` and echo `Context` embedding: this is framework plumbing. The logger is passed to the handler explicitly.
- Header-name canonicalisation in `Header.Get`: the model's header map is keyed by canonical names, and `X-Forwarded-For` already is one.
- `strings.Split` with a separator longer than one character: the middleware only splits on ",".
- Concurrency across requests: the code has none of its own. Requests in `Serve` are handled one after another.
- The numeric values of Cloud Logging severities and gommon log levels: severities only pass through, so a severity is any integer.
- Header values that are not valid UTF-8: Go strings are byte strings, while the model's strings are sequences of characters. Splitting on "," only compares single bytes against an ASCII comma, so nothing else depends on the encoding.
- A handler that installs a different request object with `SetRequest`: the closure keeps the request it fetched before calling the handler, and the model's result header is that request's header.
- Lifecycle.Handle: does not follow a panic after it leaves the closure, into echo's recovery middleware or the server, because that code is not part of this model; the run ends with `Panic` and no further steps.
- Lifecycle.Handle: assumes the framework's error handler, which `c.Error` runs before the remote IP is read and the entry written, returns and leaves the request headers unchanged, because that handler belongs to the application's echo configuration, which is not part of this model; an error handler that panics would leave no access entry, and one that edits `X-Forwarded-For` would change the logged remote IP.
