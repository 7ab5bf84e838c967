/** The request-independent parts of the App Engine logger middleware: its
    configuration, the `gae_app` monitored resource and the two log names
    derived from it, the fully qualified trace string, and the client address
    taken from `X-Forwarded-For`. */
module Middleware {
  import opened Maybe
  import GoStrings

  /** The middleware's configuration: the deployment it reports as. The
      Cloud Logging client it also holds is not part of this model. */
  datatype LoggerMiddleware = LoggerMiddleware(
    moduleID: string,
    projectID: string,
    versionID: string,
    zone: string)

  /** A monitored-resource descriptor: a type tag and a label set. */
  datatype MonitoredResource = MonitoredResource(kind: string, labels: map<string, string>)

  const GaeApp: string := "gae_app"
  const ModuleIDLabel: string := "module_id"
  const ProjectIDLabel: string := "project_id"
  const VersionIDLabel: string := "version_id"
  const ZoneLabel: string := "zone"

  /** The four labels every `gae_app` resource of this middleware carries. */
  function LabelKeys(): set<string> {
    {ModuleIDLabel, ProjectIDLabel, VersionIDLabel, ZoneLabel}
  }

  /** The resource shared by both logs: type `gae_app`, each label taken from
      the matching configuration field. Reading the labels back recovers the
      configuration. */
  function CommonResource(m: LoggerMiddleware): (r: MonitoredResource)
    ensures r.kind == GaeApp
    ensures r.labels.Keys == LabelKeys() && |r.labels| == 4
  {
    MonitoredResource(GaeApp, map[
      ModuleIDLabel := m.moduleID,
      ProjectIDLabel := m.projectID,
      VersionIDLabel := m.versionID,
      ZoneLabel := m.zone])
  }

  /** The configuration a `gae_app` resource describes, if it is one. */
  function MiddlewareOfResource(r: MonitoredResource): (m: Option<LoggerMiddleware>)
    ensures m.Some? <==> r.kind == GaeApp && LabelKeys() <= r.labels.Keys
  {
    if r.kind == GaeApp && LabelKeys() <= r.labels.Keys then
      Some(LoggerMiddleware(
        r.labels[ModuleIDLabel],
        r.labels[ProjectIDLabel],
        r.labels[VersionIDLabel],
        r.labels[ZoneLabel]))
    else
      None
  }

  /** The configuration can be read back from its resource, and a `gae_app`
      resource with exactly the four labels is the resource of the
      configuration read from it. */
  lemma ResourceRoundTrip(m: LoggerMiddleware, r: MonitoredResource)
    ensures MiddlewareOfResource(CommonResource(m)) == Some(m)
    ensures MiddlewareOfResource(r) == Some(m) && r.labels.Keys == LabelKeys() ==> CommonResource(m) == r
  {
  }

  /** Which of the middleware's two logs a name denotes. */
  datatype LogKind = RequestLog | ApplicationLog

  const RequestSuffix: string := "_request"
  const ApplicationSuffix: string := "_application"

  function Suffix(kind: LogKind): string {
    match kind
    case RequestLog => RequestSuffix
    case ApplicationLog => ApplicationSuffix
  }

  predicate EndsWith(s: string, suffix: string) {
    |suffix| <= |s| && s[|s| - |suffix|..] == suffix
  }

  /** The log a module writes: its ID followed by the log's suffix. The module
      and the kind of log can be read back from the name. */
  function LogName(moduleID: string, kind: LogKind): (name: string)
    ensures ParseLogName(name) == Some((moduleID, kind))
  {
    var name := moduleID + Suffix(kind);
    assert name[|moduleID|..] == Suffix(kind);
    assert name[..|moduleID|] == moduleID;
    assert name[|name| - 1] == Suffix(kind)[|Suffix(kind)| - 1];
    name
  }

  /** The module and log kind a log name was built from, if it ends in one of
      the two suffixes. */
  function ParseLogName(name: string): (parsed: Option<(string, LogKind)>)
    ensures parsed.Some? <==> EndsWith(name, RequestSuffix) || EndsWith(name, ApplicationSuffix)
    ensures parsed.Some? ==> name == parsed.value.0 + Suffix(parsed.value.1)
  {
    if EndsWith(name, RequestSuffix) then
      assert name == name[..|name| - |RequestSuffix|] + name[|name| - |RequestSuffix|..];
      Some((name[..|name| - |RequestSuffix|], RequestLog))
    else if EndsWith(name, ApplicationSuffix) then
      assert name == name[..|name| - |ApplicationSuffix|] + name[|name| - |ApplicationSuffix|..];
      Some((name[..|name| - |ApplicationSuffix|], ApplicationLog))
    else
      None
  }

  /** No two (module, kind) pairs share a log name; in particular a module's
      request log and application log are always distinct, and one module's
      request log is never another module's application log. */
  lemma LogNamesDistinct(m1: string, k1: LogKind, m2: string, k2: LogKind)
    ensures LogName(m1, k1) == LogName(m2, k2) <==> m1 == m2 && k1 == k2
  {
  }

  /** A configured log: where entries go and the resource they are tagged with. */
  datatype Sink = Sink(logName: string, resource: MonitoredResource)

  /** What `Logger` prepares once, before it returns the per-request closure. */
  datatype Hook = Hook(projectID: string, requestLog: Sink, applicationLog: Sink)

  /** Wrapping a handler: both logs share the `gae_app` resource of the
      configuration and are named after its module, one per kind. */
  function Logger(m: LoggerMiddleware): (h: Hook)
    ensures h.projectID == m.projectID
    ensures h.requestLog.resource == h.applicationLog.resource
    ensures MiddlewareOfResource(h.requestLog.resource) == Some(m)
    ensures ParseLogName(h.requestLog.logName) == Some((m.moduleID, RequestLog))
    ensures ParseLogName(h.applicationLog.logName) == Some((m.moduleID, ApplicationLog))
    ensures h.requestLog.logName != h.applicationLog.logName
  {
    var resource := CommonResource(m);
    Hook(m.projectID,
         Sink(LogName(m.moduleID, RequestLog), resource),
         Sink(LogName(m.moduleID, ApplicationLog), resource))
  }

  const TracePrefix: string := "projects/"
  const TraceInfix: string := "/traces/"

  /** The fully qualified trace name Cloud Logging expects; the trace ID
      can be read back from it. */
  function Trace(projectID: string, traceID: string): (t: string)
    ensures TraceIDOf(projectID, t) == Some(traceID)
  {
    var head := TracePrefix + projectID + TraceInfix;
    assert (head + traceID)[..|head|] == head;
    assert (head + traceID)[|head|..] == traceID;
    head + traceID
  }

  /** The trace ID inside a fully qualified trace name of the given project. */
  function TraceIDOf(projectID: string, trace: string): Option<string> {
    var head := TracePrefix + projectID + TraceInfix;
    if |head| <= |trace| && trace[..|head|] == head then Some(trace[|head|..]) else None
  }

  /** Within a project, the trace name and the trace ID determine each other. */
  lemma TraceRoundTrip(projectID: string, traceID: string, trace: string)
    ensures TraceIDOf(projectID, Trace(projectID, traceID)) == Some(traceID)
    ensures TraceIDOf(projectID, trace) == Some(traceID) ==> Trace(projectID, traceID) == trace
  {
  }

  /** Trace IDs never contain '/' (they are hex strings), and then the trace
      name determines both the project and the trace ID. */
  lemma TraceInjective(p1: string, t1: string, p2: string, t2: string)
    requires '/' !in t1 && '/' !in t2
    requires Trace(p1, t1) == Trace(p2, t2)
    ensures p1 == p2 && t1 == t2
  {
    var s := Trace(p1, t1);
    var h1 := TracePrefix + p1 + TraceInfix;
    var h2 := TracePrefix + p2 + TraceInfix;
    assert s == h1 + t1 && s == h2 + t2;
    assert s[|h1| - 1] == '/';
    assert s[|h2| - 1] == '/';
    assert t1 == s[|h1|..] == t2;
    assert h1 == s[..|h1|] == h2;
    assert p1 == h1[|TracePrefix|..|h1| - |TraceInfix|] == p2;
  }

  /** Request headers, keyed by canonical header name. */
  type Header = map<string, seq<string>>

  const XForwardedFor: string := "X-Forwarded-For"

  /** `Header.Get`: the first value under the key, or "" when there is none. */
  function HeaderGet(h: Header, key: string): (v: string)
    ensures key in h && |h[key]| > 0 ==> v == h[key][0]
    ensures key !in h || h[key] == [] ==> v == ""
  {
    if key in h && |h[key]| > 0 then h[key][0] else ""
  }

  /** `Header.Set`: the key now holds exactly `value`; other keys are untouched. */
  function HeaderSet(h: Header, key: string, value: string): (h': Header)
    ensures HeaderGet(h', key) == value
    ensures forall k :: k != key ==> HeaderGet(h', k) == HeaderGet(h, k)
  {
    h[key := [value]]
  }

  /** `Header.Del`: the key is gone; other keys are untouched. */
  function HeaderDel(h: Header, key: string): (h': Header)
    ensures HeaderGet(h', key) == ""
    ensures forall k :: k != key ==> HeaderGet(h', k) == HeaderGet(h, k)
  {
    h - {key}
  }

  /** The client address logged for a request: the first comma-separated
      token of `X-Forwarded-For`, untrimmed. It is the part of the header
      before its first comma: a comma-free prefix that stops at a comma or at
      the end, the whole header when it has no comma, and "" when the header
      is absent or empty. */
  function RemoteIP(h: Header): (r: string)
    ensures var v := HeaderGet(h, XForwardedFor);
      && ',' !in r
      && r <= v
      && (|r| < |v| ==> v[|r|] == ',')
      && (',' !in v ==> r == v)
      && (XForwardedFor !in h || h[XForwardedFor] == [] || v == "" ==> r == "")
  {
    var v := HeaderGet(h, XForwardedFor);
    GoStrings.SplitHead(v, ',');
    GoStrings.Split(v, ',')[0]
  }

  /** The remote IP of a two-hop chain is the first hop. */
  lemma RemoteIPExample()
    ensures RemoteIP(map[XForwardedFor := ["1.2.3.4, 5.6.7.8"]]) == "1.2.3.4"
  {
    var first, rest := "1.2.3.4", ", 5.6.7.8";
    assert first + rest == "1.2.3.4, 5.6.7.8";
    GoStrings.SplitAfterPlainPrefix(first, rest, ',');
    assert rest == [','] + rest[1..];
  }
}
