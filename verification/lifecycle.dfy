/** The per-request closure `Logger` returns, as a pure function from the
    request and the wrapped handler to the trace of what the closure does:
    build a fresh request logger, set it to INFO, call the handler once,
    route its error to the framework, write one access entry, return nil.
    A panicking handler cuts this short after the handler call. */
module Lifecycle {
  import opened Maybe
  import opened Middleware

  /** A Cloud Logging severity. Its enumeration and the rule by which the
      request logger raises its maximum live outside this model, so a
      severity is any integer and is only ever passed along. */
  type Severity = int

  /** The gommon/log levels a request logger can be set to. */
  datatype Level = DEBUG | INFO | WARN | ERROR | OFF

  /** What trace propagation extracted from the request: the trace ID and the
      span ID, already rendered as strings (zero IDs when extraction failed,
      whose error the closure ignores). */
  datatype SpanContext = SpanContext(traceID: string, spanID: string)

  datatype Request = Request(header: Header, spanContext: SpanContext)

  /** The per-request logger as the handler receives it: the application
      log it writes to, the trace and span it stamps on every entry, its
      threshold, and the highest severity it has seen. */
  datatype RequestLogger = RequestLogger(
    logName: string,
    trace: string,
    spanID: string,
    level: Level,
    maxSeverity: Severity)

  datatype HandlerError = HandlerError(message: string)

  /** How a handler invocation ended. It either returned, with its error if
      any, its logger's maximum severity at that moment, and the request
      headers as it left them (the handler shares the request with the
      closure, which reads `X-Forwarded-For` only afterwards); or it
      panicked. */
  datatype HandlerResult =
    | Completed(err: Option<HandlerError>, maxSeverity: Severity, header: Header)
    | Panicked

  /** The wrapped handler, seeing the request and the logger put in place of
      the framework's default one. */
  type Handler = (Request, RequestLogger) -> HandlerResult

  /** The access-log entry; the clock readings and the response status and
      size it also carries are not part of this model. */
  datatype AccessEntry = AccessEntry(
    severity: Severity,
    remoteIP: string,
    trace: string,
    traceSampled: bool,
    spanID: string)

  /** The observable steps of one invocation, in order. */
  datatype Event =
    | LoggerCreated(logName: string, trace: string, spanID: string)
    | LevelSet(level: Level)
    | HandlerCalled(logger: RequestLogger)
    | ErrorRouted(err: HandlerError)
    | AccessLogged(logName: string, entry: AccessEntry)

  /** How an invocation left the closure: returning an error (nil is `None`),
      or with the handler's panic still unwinding. */
  datatype Exit = Return(err: Option<HandlerError>) | Panic

  /** The steps one invocation took and how it left the closure. */
  datatype Run = Run(events: seq<Event>, exit: Exit)

  /** The values `pick` finds in the events, in order. */
  function Collect<T>(events: seq<Event>, pick: Event -> Option<T>): seq<T> {
    if |events| == 0 then []
    else
      var here := if pick(events[0]).Some? then [pick(events[0]).value] else [];
      here + Collect(events[1..], pick)
  }

  /** Collecting over a concatenation concatenates what is collected. */
  lemma {:induction false} CollectDistributes<T>(a: seq<Event>, b: seq<Event>, pick: Event -> Option<T>)
    ensures Collect(a + b, pick) == Collect(a, pick) + Collect(b, pick)
    decreases |a|
  {
    if |a| == 0 {
      assert a + b == b;
    } else {
      var here := if pick(a[0]).Some? then [pick(a[0]).value] else [];
      assert (a + b)[0] == a[0];
      assert (a + b)[1..] == a[1..] + b;
      assert Collect(a + b, pick) == here + Collect(a[1..] + b, pick);
      CollectDistributes(a[1..], b, pick);
      assert Collect(a, pick) == here + Collect(a[1..], pick);
    }
  }

  /** What is collected from a single event. */
  lemma CollectOne<T>(e: Event, pick: Event -> Option<T>)
    ensures Collect([e], pick) == if pick(e).Some? then [pick(e).value] else []
  {
  }

  function AsHandlerCall(e: Event): Option<RequestLogger> {
    if e.HandlerCalled? then Some(e.logger) else None
  }

  function AsErrorCall(e: Event): Option<HandlerError> {
    if e.ErrorRouted? then Some(e.err) else None
  }

  function AsAccessEntry(e: Event): Option<(string, AccessEntry)> {
    if e.AccessLogged? then Some((e.logName, e.entry)) else None
  }

  /** The loggers handed to the handler, in order. */
  function HandlerCalls(events: seq<Event>): seq<RequestLogger> {
    Collect(events, AsHandlerCall)
  }

  /** The errors passed to the framework's error handler, in order. */
  function ErrorCalls(events: seq<Event>): seq<HandlerError> {
    Collect(events, AsErrorCall)
  }

  /** The access entries written, each with the log it went to, in order. */
  function AccessEntries(events: seq<Event>): seq<(string, AccessEntry)> {
    Collect(events, AsAccessEntry)
  }

  /** Each projection of a concatenation is the concatenation of the projections. */
  lemma ProjectionsDistribute(a: seq<Event>, b: seq<Event>)
    ensures HandlerCalls(a + b) == HandlerCalls(a) + HandlerCalls(b)
    ensures ErrorCalls(a + b) == ErrorCalls(a) + ErrorCalls(b)
    ensures AccessEntries(a + b) == AccessEntries(a) + AccessEntries(b)
  {
    CollectDistributes(a, b, AsHandlerCall);
    CollectDistributes(a, b, AsErrorCall);
    CollectDistributes(a, b, AsAccessEntry);
  }

  /** The projections of a single event. */
  lemma ProjectionsOfOne(e: Event)
    ensures HandlerCalls([e]) == (if e.HandlerCalled? then [e.logger] else [])
    ensures ErrorCalls([e]) == (if e.ErrorRouted? then [e.err] else [])
    ensures AccessEntries([e]) == (if e.AccessLogged? then [(e.logName, e.entry)] else [])
  {
    CollectOne(e, AsHandlerCall);
    CollectOne(e, AsErrorCall);
    CollectOne(e, AsAccessEntry);
  }

  /** The fresh logger a request gets: bound to the application log and to
      the request's trace and span, at INFO, and at the maximum severity a
      new logger starts with. */
  function NewRequestLogger(h: Hook, newSeverity: Severity, req: Request): (l: RequestLogger)
    ensures l.logName == h.applicationLog.logName
    ensures TraceIDOf(h.projectID, l.trace) == Some(req.spanContext.traceID)
    ensures l.spanID == req.spanContext.spanID
    ensures l.level == INFO && l.maxSeverity == newSeverity
  {
    RequestLogger(h.applicationLog.logName, Trace(h.projectID, req.spanContext.traceID),
                  req.spanContext.spanID, INFO, newSeverity)
  }

  /** The steps before the handler runs: create the logger, set its level,
      call the handler with it. They hand the logger to the handler once and
      route no error and write no entry. */
  function Prelude(l: RequestLogger): (p: seq<Event>)
    ensures HandlerCalls(p) == [l]
    ensures ErrorCalls(p) == []
    ensures AccessEntries(p) == []
  {
    var created, leveled, called := LoggerCreated(l.logName, l.trace, l.spanID), LevelSet(l.level), HandlerCalled(l);
    ProjectionsOfOne(created);
    ProjectionsOfOne(leveled);
    ProjectionsOfOne(called);
    ProjectionsDistribute([leveled], [called]);
    ProjectionsDistribute([created], [leveled] + [called]);
    assert [created] + ([leveled] + [called]) == [created, leveled, called];
    [created, leveled, called]
  }

  /** `x` is the access entry for a handler that returned with its logger
      `l` at `maxSeverity` and the request headers as `header`: it goes to
      the request log, carries that severity, the logger's trace and span,
      the sampled flag, and the first `X-Forwarded-For` hop of `header`. */
  predicate EntryAfter(h: Hook, l: RequestLogger, maxSeverity: Severity, header: Header, x: (string, AccessEntry)) {
    && x.0 == h.requestLog.logName
    && x.1.severity == maxSeverity
    && x.1.trace == l.trace
    && x.1.spanID == l.spanID
    && x.1.traceSampled
    && x.1.remoteIP == RemoteIP(header)
  }

  /** No step of `ev` sets the level or calls the handler. */
  predicate NoLevelOrHandler(ev: seq<Event>) {
    forall i :: 0 <= i < |ev| ==> !ev[i].HandlerCalled? && !ev[i].LevelSet?
  }

  /** Steps without level changes or handler calls stay so when joined. */
  lemma NoLevelOrHandlerConcat(a: seq<Event>, b: seq<Event>)
    requires NoLevelOrHandler(a) && NoLevelOrHandler(b)
    ensures NoLevelOrHandler(a + b)
  {
  }

  /** The level is set before the handler is called, and the handler is
      called before any error is routed or any entry written. */
  predicate InOrder(ev: seq<Event>) {
    && (forall i, j :: 0 <= i < |ev| && 0 <= j < |ev| && ev[i].LevelSet? && ev[j].HandlerCalled? ==> i < j)
    && (forall i, j :: 0 <= i < |ev| && 0 <= j < |ev| && ev[i].HandlerCalled? && (ev[j].ErrorRouted? || ev[j].AccessLogged?) ==> i < j)
  }

  /** The step routing the handler's error to the framework, if there is one. */
  function ErrorStep(err: Option<HandlerError>): (s: seq<Event>)
    ensures HandlerCalls(s) == [] && AccessEntries(s) == []
    ensures ErrorCalls(s) == (if err.Some? then [err.value] else [])
    ensures NoLevelOrHandler(s)
  {
    if err.Some? then
      ProjectionsOfOne(ErrorRouted(err.value));
      [ErrorRouted(err.value)]
    else
      []
  }

  /** The step writing the access entry for a handler that returned. */
  function AccessStep(h: Hook, l: RequestLogger, maxSeverity: Severity, header: Header): (e: Event)
    ensures e.AccessLogged? && EntryAfter(h, l, maxSeverity, header, (e.logName, e.entry))
  {
    AccessLogged(h.requestLog.logName, AccessEntry(maxSeverity, RemoteIP(header), l.trace, true, l.spanID))
  }

  /** What happens once the handler has returned `err`, with its logger at
      `maxSeverity` and the request headers as `header`: the error, if any,
      goes to the framework, then one access entry is written to the request
      log with that severity, the logger's trace and span, and the first
      `X-Forwarded-For` hop of the headers as the handler left them. */
  function AfterHandler(h: Hook, l: RequestLogger, err: Option<HandlerError>, maxSeverity: Severity, header: Header)
    : (tail: seq<Event>)
    ensures HandlerCalls(tail) == []
    ensures ErrorCalls(tail) == (if err.Some? then [err.value] else [])
    ensures |AccessEntries(tail)| == 1
    ensures EntryAfter(h, l, maxSeverity, header, AccessEntries(tail)[0])
    ensures NoLevelOrHandler(tail)
    ensures |tail| > 0 && tail[|tail| - 1].AccessLogged?
  {
    var routed, logged := ErrorStep(err), AccessStep(h, l, maxSeverity, header);
    ProjectionsOfOne(logged);
    ProjectionsDistribute(routed, [logged]);
    NoLevelOrHandlerConcat(routed, [logged]);
    routed + [logged]
  }

  /** The prelude followed by later steps with no handler call: the handler
      is called once, with `l`, and the errors and entries are the later
      steps' own. */
  lemma ProjectionsAfterPrelude(l: RequestLogger, tail: seq<Event>)
    requires HandlerCalls(tail) == []
    ensures HandlerCalls(Prelude(l) + tail) == [l]
    ensures ErrorCalls(Prelude(l) + tail) == ErrorCalls(tail)
    ensures AccessEntries(Prelude(l) + tail) == AccessEntries(tail)
  {
    ProjectionsDistribute(Prelude(l), tail);
  }

  /** The prelude followed by later steps with no level change or handler
      call: the run starts by creating the logger, setting its level and
      calling the handler, in that order; the level is set before the
      handler is called, and the handler is called before any error is routed
      or entry written. */
  lemma OrderAfterPrelude(l: RequestLogger, tail: seq<Event>)
    requires NoLevelOrHandler(tail)
    ensures var ev := Prelude(l) + tail;
      |ev| >= 3 && ev[..3] == [LoggerCreated(l.logName, l.trace, l.spanID), LevelSet(l.level), HandlerCalled(l)]
    ensures InOrder(Prelude(l) + tail)
  {
    assert (Prelude(l) + tail)[..3] == Prelude(l);
  }

  /** One invocation of the closure. It creates a fresh logger bound to the
      application log, the request's trace and span, and the maximum
      severity a new logger starts with (`newSeverity`); sets it to INFO;
      and calls the handler with it exactly once. If the handler panics,
      nothing more happens: no error is routed, no entry is written, and the
      panic leaves the closure. Otherwise the handler's error, if any,
      reaches the framework exactly once; then exactly one access entry is
      written, last, to the request log, carrying the logger's maximum
      severity after the handler, the same trace and span, and the first
      `X-Forwarded-For` hop of the headers as the handler left them; and
      the closure returns nil. */
  function Handle(h: Hook, newSeverity: Severity, next: Handler, req: Request): (run: Run)
    ensures |HandlerCalls(run.events)| == 1
    ensures var l := HandlerCalls(run.events)[0];
      && l.logName == h.applicationLog.logName
      && TraceIDOf(h.projectID, l.trace) == Some(req.spanContext.traceID)
      && l.spanID == req.spanContext.spanID
      && l.level == INFO
      && l.maxSeverity == newSeverity
    ensures var l := HandlerCalls(run.events)[0];
      |run.events| >= 3 && run.events[..3] == [LoggerCreated(l.logName, l.trace, l.spanID), LevelSet(INFO), HandlerCalled(l)]
    ensures var res := next(req, HandlerCalls(run.events)[0]);
      res.Panicked? ==> run.exit == Panic && ErrorCalls(run.events) == [] && AccessEntries(run.events) == []
    ensures var l := HandlerCalls(run.events)[0];
      var res := next(req, l);
      res.Completed? ==>
        && run.exit == Return(None)
        && ErrorCalls(run.events) == (if res.err.Some? then [res.err.value] else [])
        && |AccessEntries(run.events)| == 1
        && EntryAfter(h, l, res.maxSeverity, res.header, AccessEntries(run.events)[0])
        && run.events[|run.events| - 1].AccessLogged?
    ensures InOrder(run.events)
  {
    var l := NewRequestLogger(h, newSeverity, req);
    match next(req, l)
    case Panicked =>
      OrderAfterPrelude(l, []);
      assert Prelude(l) + [] == Prelude(l);
      Run(Prelude(l), Panic)
    case Completed(err, maxSeverity, header) =>
      var tail := AfterHandler(h, l, err, maxSeverity, header);
      ProjectionsAfterPrelude(l, tail);
      OrderAfterPrelude(l, tail);
      Run(Prelude(l) + tail, Return(None))
  }

  /** A handler that points `X-Forwarded-For` elsewhere before returning. */
  function RewritesForwardedFor(req: Request, l: RequestLogger): HandlerResult {
    Completed(None, l.maxSeverity, HeaderSet(req.header, XForwardedFor, "10.0.0.1"))
  }

  /** A handler that removes `X-Forwarded-For` before returning. */
  function DeletesForwardedFor(req: Request, l: RequestLogger): HandlerResult {
    Completed(None, l.maxSeverity, HeaderDel(req.header, XForwardedFor))
  }

  /** The remote IP is read after the handler ran: whatever the request said,
      a handler that rewrites the header to "10.0.0.1" gets "10.0.0.1" logged,
      and one that deletes it gets "". */
  lemma RemoteIPReadAfterHandler(h: Hook, newSeverity: Severity, req: Request)
    ensures var a := AccessEntries(Handle(h, newSeverity, RewritesForwardedFor, req).events);
      |a| == 1 && a[0].1.remoteIP == "10.0.0.1"
    ensures var a := AccessEntries(Handle(h, newSeverity, DeletesForwardedFor, req).events);
      |a| == 1 && a[0].1.remoteIP == ""
  {
    var l := NewRequestLogger(h, newSeverity, req);
    assert ',' !in "10.0.0.1";
    assert RemoteIP(RewritesForwardedFor(req, l).header) == "10.0.0.1";
    assert RemoteIP(DeletesForwardedFor(req, l).header) == "";
  }

  /** The steps of one invocation, case by case on how the handler ended. */
  lemma HandleEvents(h: Hook, newSeverity: Severity, next: Handler, req: Request)
    ensures var l := NewRequestLogger(h, newSeverity, req);
      var res := next(req, l);
      Handle(h, newSeverity, next, req).events
        == if res.Panicked? then Prelude(l)
           else Prelude(l) + AfterHandler(h, l, res.err, res.maxSeverity, res.header)
  {
  }

  /** What one run's logger and access entries are made of: the logger the
      handler is given is the fresh one for the request, and an access entry
      exists only if the handler returned, and is then the entry for the
      severity and headers it returned with. */
  lemma HandleFixedFields(h: Hook, newSeverity: Severity, next: Handler, req: Request)
    ensures var l := NewRequestLogger(h, newSeverity, req);
      HandlerCalls(Handle(h, newSeverity, next, req).events) == [l]
    ensures var l := NewRequestLogger(h, newSeverity, req);
      var a := AccessEntries(Handle(h, newSeverity, next, req).events);
      var res := next(req, l);
      forall k :: 0 <= k < |a| ==> res.Completed? && EntryAfter(h, l, res.maxSeverity, res.header, a[k])
  {
    var l := NewRequestLogger(h, newSeverity, req);
    var res := next(req, l);
    var ev := Handle(h, newSeverity, next, req).events;
    HandleEvents(h, newSeverity, next, req);
    if res.Panicked? {
      assert ev == Prelude(l);
    } else {
      var tail := AfterHandler(h, l, res.err, res.maxSeverity, res.header);
      assert ev == Prelude(l) + tail;
      ProjectionsAfterPrelude(l, tail);
      var a := AccessEntries(ev);
      assert a == AccessEntries(tail);
      assert |a| == 1 && EntryAfter(h, l, res.maxSeverity, res.header, a[0]);
    }
  }

  /** What the handler cannot influence: for the same request, any two
      handlers are given the same logger, and their access entries agree in
      log, trace, span and sampling flag. The remote IP depends only on the
      headers the handler leaves, and the severity only on the logger's
      maximum after it. */
  lemma HandlerIndependentFields(h: Hook, newSeverity: Severity, next1: Handler, next2: Handler, req: Request)
    ensures HandlerCalls(Handle(h, newSeverity, next1, req).events) == HandlerCalls(Handle(h, newSeverity, next2, req).events)
    ensures var a1, a2 := AccessEntries(Handle(h, newSeverity, next1, req).events),
                          AccessEntries(Handle(h, newSeverity, next2, req).events);
      forall i, j :: 0 <= i < |a1| && 0 <= j < |a2| ==>
        && a1[i].0 == a2[j].0
        && a1[i].1.(severity := 0, remoteIP := "") == a2[j].1.(severity := 0, remoteIP := "")
    ensures var l := HandlerCalls(Handle(h, newSeverity, next1, req).events)[0];
      var a1, a2 := AccessEntries(Handle(h, newSeverity, next1, req).events),
                    AccessEntries(Handle(h, newSeverity, next2, req).events);
      next1(req, l).Completed? && next2(req, l).Completed? && next1(req, l).header == next2(req, l).header ==>
        forall i, j :: 0 <= i < |a1| && 0 <= j < |a2| ==> a1[i].1.remoteIP == a2[j].1.remoteIP
  {
    HandleFixedFields(h, newSeverity, next1, req);
    HandleFixedFields(h, newSeverity, next2, req);
  }

  /** Wrapping with a configured middleware: the handler's logger writes to
      the module's application log, and every access entry goes to the
      module's request log and carries a trace naming the configured project
      and the request's trace ID. */
  lemma ConfiguredRun(m: LoggerMiddleware, newSeverity: Severity, next: Handler, req: Request)
    ensures var run := Handle(Logger(m), newSeverity, next, req);
      ParseLogName(HandlerCalls(run.events)[0].logName) == Some((m.moduleID, ApplicationLog))
    ensures var a := AccessEntries(Handle(Logger(m), newSeverity, next, req).events);
      forall k :: 0 <= k < |a| ==>
        && ParseLogName(a[k].0) == Some((m.moduleID, RequestLog))
        && TraceIDOf(m.projectID, a[k].1.trace) == Some(req.spanContext.traceID)
  {
    HandleFixedFields(Logger(m), newSeverity, next, req);
  }

  /** The elements of several sequences, one sequence after another. */
  function Concat<T>(xss: seq<seq<T>>): seq<T> {
    if |xss| == 0 then [] else xss[0] + Concat(xss[1..])
  }

  /** What `pick` finds in each run, run by run. */
  function CollectEach<T>(chunks: seq<seq<Event>>, pick: Event -> Option<T>): (r: seq<seq<T>>)
    ensures |r| == |chunks|
    ensures forall k :: 0 <= k < |chunks| ==> r[k] == Collect(chunks[k], pick)
  {
    seq(|chunks|, k requires 0 <= k < |chunks| => Collect(chunks[k], pick))
  }

  /** Collecting over runs in sequence is collecting run by run and
      concatenating the results in run order. */
  lemma {:induction false} CollectConcat<T>(chunks: seq<seq<Event>>, pick: Event -> Option<T>)
    ensures Collect(Concat(chunks), pick) == Concat(CollectEach(chunks, pick))
    decreases |chunks|
  {
    if |chunks| > 0 {
      var each := CollectEach(chunks, pick);
      CollectConcat(chunks[1..], pick);
      CollectDistributes(chunks[0], Concat(chunks[1..]), pick);
      assert each[1..] == CollectEach(chunks[1..], pick);
    }
  }

  /** When every run contributes exactly one collected value, the values
      collected from the runs in sequence are those values, in run order. */
  lemma {:induction false} CollectOnePerChunk<T>(chunks: seq<seq<Event>>, pick: Event -> Option<T>)
    requires forall k :: 0 <= k < |chunks| ==> |Collect(chunks[k], pick)| == 1
    ensures |Collect(Concat(chunks), pick)| == |chunks|
    ensures forall k :: 0 <= k < |chunks| ==> Collect(Concat(chunks), pick)[k] == Collect(chunks[k], pick)[0]
    decreases |chunks|
  {
    if |chunks| > 0 {
      var rest := chunks[1..];
      assert forall k :: 0 <= k < |rest| ==> rest[k] == chunks[k + 1];
      CollectOnePerChunk(rest, pick);
      CollectDistributes(chunks[0], Concat(rest), pick);
      var all := Collect(Concat(chunks), pick);
      assert all == Collect(chunks[0], pick) + Collect(Concat(rest), pick);
      forall k | 0 <= k < |chunks|
        ensures all[k] == Collect(chunks[k], pick)[0]
      {
        if k > 0 {
          assert all[k] == Collect(Concat(rest), pick)[k - 1];
        }
      }
    }
  }

  /** The runs of serving `reqs` one after another through the same closure.
      The wrapped handler may keep state between calls, so the handler the
      i-th request meets is given separately, as `nexts[i]`. */
  function Runs(h: Hook, newSeverity: Severity, nexts: seq<Handler>, reqs: seq<Request>): (runs: seq<seq<Event>>)
    requires |nexts| == |reqs|
    ensures |runs| == |reqs|
    ensures forall i :: 0 <= i < |reqs| ==> runs[i] == Handle(h, newSeverity, nexts[i], reqs[i]).events
  {
    seq(|reqs|, i requires 0 <= i < |reqs| => Handle(h, newSeverity, nexts[i], reqs[i]).events)
  }

  /** The steps of serving `reqs` one after another through the same closure. */
  function Serve(h: Hook, newSeverity: Severity, nexts: seq<Handler>, reqs: seq<Request>): seq<Event>
    requires |nexts| == |reqs|
  {
    Concat(Runs(h, newSeverity, nexts, reqs))
  }

  /** Nothing carries over between requests in the closure itself, whatever
      state the handler keeps: serving a sequence of requests calls the
      handler once per request, the i-th time with the fresh logger for the
      i-th request, starting at the initial maximum severity; the errors
      routed and the access entries written are those of the per-request
      runs, concatenated in request order. */
  lemma ServeIsolatesRequests(h: Hook, newSeverity: Severity, nexts: seq<Handler>, reqs: seq<Request>)
    requires |nexts| == |reqs|
    ensures |HandlerCalls(Serve(h, newSeverity, nexts, reqs))| == |reqs|
    ensures forall i :: 0 <= i < |reqs| ==>
      HandlerCalls(Serve(h, newSeverity, nexts, reqs))[i] == NewRequestLogger(h, newSeverity, reqs[i])
    ensures forall i :: 0 <= i < |reqs| ==> HandlerCalls(Serve(h, newSeverity, nexts, reqs))[i].maxSeverity == newSeverity
    ensures ErrorCalls(Serve(h, newSeverity, nexts, reqs)) == Concat(CollectEach(Runs(h, newSeverity, nexts, reqs), AsErrorCall))
    ensures AccessEntries(Serve(h, newSeverity, nexts, reqs)) == Concat(CollectEach(Runs(h, newSeverity, nexts, reqs), AsAccessEntry))
  {
    var runs := Runs(h, newSeverity, nexts, reqs);
    forall i | 0 <= i < |reqs|
      ensures HandlerCalls(runs[i]) == [NewRequestLogger(h, newSeverity, reqs[i])]
    {
      HandleFixedFields(h, newSeverity, nexts[i], reqs[i]);
    }
    CollectOnePerChunk(runs, AsHandlerCall);
    CollectConcat(runs, AsErrorCall);
    CollectConcat(runs, AsAccessEntry);
  }
}
