/**
 * The public methods of the promise-based client (src/mackerel.js:252-399):
 * each one is a fixed (path, verb, payload) triple handed to `api`, with the
 * caller's callback forwarded or not.  The table keeps the source's quirks:
 * `deleteDashboard` passes the callback where the payload goes, `getHostMetrics`
 * and `postMetrics` drop the callback, `deleteGraphAnnotation` and `deleteUser`
 * use GET, and `modifyMonitor`/`deleteMonitor` ignore the monitor id.
 */
module Endpoints {
  import opened Js
  import opened Promises
  import opened Client

  datatype Endpoint =
    | GetServices
    | GetRoles(serviceName: string)
    | GetTags(serviceName: string)
    | AddHost(hostInfo: Value)
    | GetHosts
    | GetHost(hostId: string)
    | ModifyHost(hostInfo: Value)
    | ModifyHostStatus(hostId: string, status: string)
    | ModifyHostRole(hostId: string, roles: Value)
    | RetireHost(hostId: string)
    | GetHostMetrics(hostId: string)
    | PostMetrics(metrics: seq<Metric>)
    | GetHostMetric(hostId: string, name: string, fromMs: nat, toMs: nat)
    | GetLatestMetric(hostId: string, name: string)
    | SetGraphDefinitions(graphDefs: Value)
    | PostServiceMetrics(serviceName: string, metrics: seq<Metric>)
    | GetServiceMetrics(serviceName: string, name: string, fromMs: nat, toMs: nat)
    | PostCheckReports(data: Value)
    | GetMetadata(hostId: string, namespace: string)
    | ModifyMetadata(hostId: string, namespace: string, data: Value)
    | DeleteMetadata(hostId: string, namespace: string)
    | CreateMonitor(data: Value)
    | GetMonitors
    | ModifyMonitor(monitorId: string, data: Value)
    | DeleteMonitor(monitorId: string)
    | GetAlert
    | CloseAlert(alertId: string, reason: Value)
    | CreateDashboard(dashboard: Value)
    | GetDashboard(dashboardId: string)
    | ModifyDashboard(dashboardId: string, dashboard: Value)
    | DeleteDashboard(dashboardId: string)
    | GetDashboards
    | CreateGraphAnnotation(annotation: Value)
    | GetGraphAnnotation(service: string, fromSec: int, toSec: int)
    | ModifyGraphAnnotation(annotationId: string, annotation: Value, fromSec: int, toSec: int)
    | DeleteGraphAnnotation(annotationId: string)
    | GetUsers
    | DeleteUser(userId: string)
    | CreateInvitation(invitation: Value)
    | GetOrganization

  /** The arguments a public method passes to `api`; the callback is the caller's one when forwarded. */
  datatype Route = Route(path: string, verb: Verb, data: Value, forwardsCallback: bool)

  /** The methods whose names say they only read. */
  predicate IsGetter(e: Endpoint) {
    || e.GetServices? || e.GetRoles? || e.GetTags? || e.GetHosts? || e.GetHost?
    || e.GetHostMetrics? || e.GetHostMetric? || e.GetLatestMetric? || e.GetServiceMetrics?
    || e.GetMetadata? || e.GetMonitors? || e.GetAlert? || e.GetDashboard? || e.GetDashboards?
    || e.GetGraphAnnotation? || e.GetUsers? || e.GetOrganization?
  }

  /** `0|(ms / 1000)` on a non-negative time: whole seconds, truncated. */
  function Seconds(ms: nat): (s: nat)
    ensures 1000 * s <= ms < 1000 * (s + 1)
  {
    ms / 1000
  }

  /** `Array.isArray(roles) ? roles : [roles]` in `modifyHostRole`. */
  function RoleList(roles: Value): (r: Value)
    ensures r.Arr?
    ensures roles.Arr? ==> r == roles
    ensures !roles.Arr? ==> r.items == [roles]
  {
    if roles.Arr? then roles else Arr([roles])
  }

  /** Wrapping is idempotent: a wrapped list is never wrapped again. */
  lemma RoleListIdempotent(roles: Value)
    ensures RoleList(RoleList(roles)) == RoleList(roles)
  {
  }

  /** A metric record as the object the JSON library serialises. */
  function MetricValue(m: Metric): (v: Value)
    ensures v.Obj?
    ensures ("name", Str(m.name)) in v.fields
    ensures ("value", Num(m.value)) in v.fields
    ensures m.time.Some? ==> ("time", Num(m.time.value)) in v.fields
    ensures m.time.None? ==> ("time", Undefined) in v.fields
    ensures m.hostId.Some? ==> ("hostId", Str(m.hostId.value)) in v.fields
  {
    var time := match m.time
      case None => Undefined
      case Some(t) => Num(t);
    Obj((if m.hostId.Some? then [("hostId", Str(m.hostId.value))] else [])
        + [("name", Str(m.name)), ("time", time), ("value", Num(m.value))])
  }

  /** The posted payload: one serialised record per metric, in order. */
  function MetricsValue(ms: seq<Metric>): (v: Value)
    ensures v.Arr? && |v.items| == |ms|
    ensures forall i :: 0 <= i < |ms| ==> v.items[i] == MetricValue(ms[i])
  {
    Arr(seq(|ms|, i requires 0 <= i < |ms| => MetricValue(ms[i])))
  }

  /** The path of a time-range query with whole-second bounds. */
  function RangePath(prefix: string, fromS: int, toS: int): string {
    prefix + "&from=" + DecimalString(fromS) + "&to=" + DecimalString(toS)
  }

  /** The path each public method passes to `api`. */
  function PathOf(e: Endpoint): (p: string)
    ensures |p| > 0 && p[0] == '/'
  {
    match e
    case GetServices => "/services"
    case GetRoles(s) => "/services/" + s + "/roles"
    case GetTags(s) => "/services/" + s + "/tags"
    case AddHost(_) => "/hosts"
    case GetHosts => "/hosts"
    case GetHost(id) => "/hosts/" + id
    case ModifyHost(_) => "/hosts"
    case ModifyHostStatus(id, _) => "/hosts/" + id + "/status"
    case ModifyHostRole(id, _) => "/hosts/" + id + "/role-fullnames"
    case RetireHost(id) => "/hosts/" + id + "/retire"
    case GetHostMetrics(id) => "/hosts/" + id + "/metric-names"
    case PostMetrics(_) => "/tsdb"
    case GetHostMetric(id, name, f, t) => RangePath("/hosts/" + id + "/metrics?name=" + name, Seconds(f), Seconds(t))
    case GetLatestMetric(id, name) => "/hosts/tsdb/metrics?hostId=" + id + "&name=" + name
    case SetGraphDefinitions(_) => "/graph-defs/create"
    case PostServiceMetrics(s, _) => "/services/" + s + "/tsdb"
    case GetServiceMetrics(s, name, f, t) => RangePath("/services/" + s + "/metrics?name=" + name, Seconds(f), Seconds(t))
    case PostCheckReports(_) => "/monitoring/checks/report"
    case GetMetadata(id, ns) => "/hosts/" + id + "/metadata/" + ns
    case ModifyMetadata(id, ns, _) => "/hosts/" + id + "/metadata/" + ns
    case DeleteMetadata(id, ns) => "/hosts/" + id + "/metadata/" + ns
    case CreateMonitor(_) => "/monitors"
    case GetMonitors => "/monitors"
    case ModifyMonitor(_, _) => "/monitors"
    case DeleteMonitor(_) => "/monitors"
    case GetAlert => "/alerts"
    case CloseAlert(id, _) => "/alerts/" + id + "/close"
    case CreateDashboard(_) => "/dashboards"
    case GetDashboard(id) => "/dashboards/" + id
    case ModifyDashboard(id, _) => "/dashboards/" + id
    case DeleteDashboard(id) => "/dashboards/" + id
    case GetDashboards => "/dashboards"
    case CreateGraphAnnotation(_) => "/graph-annotations"
    case GetGraphAnnotation(s, f, t) => RangePath("/graph-annotations?service=" + s, f, t)
    case ModifyGraphAnnotation(_, _, _, _) => "/graph-annotations"
    case DeleteGraphAnnotation(id) => "/graph-annotations/" + id
    case GetUsers => "/users"
    case DeleteUser(id) => "/users/" + id
    case CreateInvitation(_) => "/invitations"
    case GetOrganization => "/org"
  }

  /**
   * The verb each public method uses: GET for every getter and, against their
   * names, for `deleteGraphAnnotation` and `deleteUser`; DELETE for the three
   * other deleters.
   */
  function VerbOf(e: Endpoint): (v: Verb)
    ensures v == GET <==> IsGetter(e) || e.DeleteGraphAnnotation? || e.DeleteUser?
    ensures v == DELETE <==> e.DeleteMetadata? || e.DeleteMonitor? || e.DeleteDashboard?
  {
    match e
    case AddHost(_) | ModifyHostStatus(_, _) | RetireHost(_) | PostMetrics(_) | SetGraphDefinitions(_)
       | PostServiceMetrics(_, _) | PostCheckReports(_) | CreateMonitor(_) | CloseAlert(_, _)
       | CreateDashboard(_) | CreateGraphAnnotation(_) | CreateInvitation(_) => POST
    case ModifyHost(_) | ModifyHostRole(_, _) | ModifyMetadata(_, _, _) | ModifyMonitor(_, _)
       | ModifyDashboard(_, _) | ModifyGraphAnnotation(_, _, _, _) => PUT
    case DeleteMetadata(_, _) | DeleteMonitor(_) | DeleteDashboard(_) => DELETE
    case _ => GET
  }

  /** The payload each public method passes to `api`. */
  function DataOf(e: Endpoint, hasCallback: bool): (d: Value)
    ensures e.DeleteMetadata? || e.DeleteMonitor? ==> d == Null
    ensures e.DeleteDashboard? ==> d == (if hasCallback then Fn else Undefined)
    ensures e.ModifyHostRole? ==> d == Obj([("roleFullnames", RoleList(e.roles))])
    ensures e.PostMetrics? || e.PostServiceMetrics? ==> d == MetricsValue(e.metrics)
  {
    match e
    case AddHost(info) => info
    case ModifyHost(info) => info
    case ModifyHostStatus(_, status) => Obj([("status", Str(status))])
    case ModifyHostRole(_, roles) => Obj([("roleFullnames", RoleList(roles))])
    case RetireHost(_) => EmptyObject
    case PostMetrics(ms) => MetricsValue(ms)
    case SetGraphDefinitions(defs) => defs
    case PostServiceMetrics(_, ms) => MetricsValue(ms)
    case PostCheckReports(data) => data
    case ModifyMetadata(_, _, data) => data
    case CreateMonitor(data) => data
    case ModifyMonitor(_, data) => data
    case CloseAlert(_, reason) => reason
    case CreateDashboard(d) => d
    case ModifyDashboard(_, d) => d
    case DeleteDashboard(_) => if hasCallback then Fn else Undefined
    case CreateGraphAnnotation(a) => a
    case ModifyGraphAnnotation(_, a, _, _) => a
    case CreateInvitation(inv) => inv
    case _ => Null
  }

  /** Every method that uses GET, the two GET deleters included, sends a null payload. */
  lemma ReadsSendNull(e: Endpoint, hasCallback: bool)
    requires VerbOf(e) == GET
    ensures DataOf(e, hasCallback) == Null
  {
  }

  /** Every public method forwards the caller's callback except these three. */
  predicate ForwardsCallback(e: Endpoint) {
    !(e.GetHostMetrics? || e.PostMetrics? || e.DeleteDashboard?)
  }

  /** The whole table entry of a public method. */
  function RouteOf(e: Endpoint, hasCallback: bool): Route {
    Route(PathOf(e), VerbOf(e), DataOf(e, hasCallback), ForwardsCallback(e))
  }

  /** Every read sends the query `JSON.stringify({})`, whatever the method. */
  lemma GetterQueryIsEmptyObject(c: Client, e: Endpoint, hasCallback: bool, enc: Encoder, opt: RequestOption)
    requires IsGetter(e)
    requires IsRequestFor(opt, c, RouteOf(e, hasCallback).path, GET, RouteOf(e, hasCallback).data, enc)
    ensures opt.url == c.endpoint + RouteOf(e, hasCallback).path + "?" + enc(EmptyObject)
  {
  }

  /** `deleteDashboard` with a callback sends the query `undefined`, since a function has no JSON text. */
  lemma DeleteDashboardQuirk(c: Client, id: string, enc: Encoder, opt: RequestOption)
    requires IsRequestFor(opt, c, "/dashboards/" + id, DELETE, Fn, enc)
    ensures opt.url == c.endpoint + "/dashboards/" + id + "?undefined"
  {
  }

  /** `modifyMonitor` and `deleteMonitor` reach the same path whatever the monitor id. */
  lemma MonitorIdIgnored(id1: string, id2: string, data: Value, hasCallback: bool)
    ensures RouteOf(ModifyMonitor(id1, data), hasCallback) == RouteOf(ModifyMonitor(id2, data), hasCallback)
    ensures RouteOf(DeleteMonitor(id1), hasCallback) == RouteOf(DeleteMonitor(id2), hasCallback)
  {
  }

  /** Two digit strings followed by `&`-led suffixes split the same way only if they are equal. */
  lemma {:induction false} DigitPrefixUnique(a: string, b: string, x: string, y: string)
    requires forall i :: 0 <= i < |a| ==> IsDigit(a[i])
    requires forall i :: 0 <= i < |b| ==> IsDigit(b[i])
    requires |x| > 0 && x[0] == '&' && |y| > 0 && y[0] == '&'
    requires a + x == b + y
    ensures a == b
  {
    if |a| < |b| {
      IndexIntoConcat(a, x, |a|);
      assert false;
    } else if |b| < |a| {
      IndexIntoConcat(b, y, |b|);
      assert false;
    } else {
      assert a == (a + x)[..|a|] == (b + y)[..|b|] == b;
    }
  }

  lemma IndexIntoConcat(a: string, x: string, i: nat)
    ensures i < |a| ==> (a + x)[i] == a[i]
    ensures |a| <= i < |a| + |x| ==> (a + x)[i] == x[i - |a|]
  {
  }

  /**
   * `getHostMetric` truncates both bounds to whole seconds: two calls reach the
   * same path exactly when their bounds fall in the same seconds.
   */
  lemma HostMetricSeconds(id: string, name: string, f1: nat, t1: nat, f2: nat, t2: nat, cb: bool)
    ensures RouteOf(GetHostMetric(id, name, f1, t1), cb) == RouteOf(GetHostMetric(id, name, f2, t2), cb)
            <==> f1 / 1000 == f2 / 1000 && t1 / 1000 == t2 / 1000
  {
    var prefix := "/hosts/" + id + "/metrics?name=" + name + "&from=";
    var p1 := RouteOf(GetHostMetric(id, name, f1, t1), cb).path;
    var p2 := RouteOf(GetHostMetric(id, name, f2, t2), cb).path;
    var d1, d2 := Digits(f1 / 1000), Digits(f2 / 1000);
    var e1, e2 := Digits(t1 / 1000), Digits(t2 / 1000);
    assert p1 == prefix + (d1 + ("&to=" + e1));
    assert p2 == prefix + (d2 + ("&to=" + e2));
    if p1 == p2 {
      assert d1 + ("&to=" + e1) == p1[|prefix|..] == p2[|prefix|..] == d2 + ("&to=" + e2);
      DigitPrefixUnique(d1, d2, "&to=" + e1, "&to=" + e2);
      assert e1 == (d1 + ("&to=" + e1))[|d1| + 4..] == (d2 + ("&to=" + e2))[|d2| + 4..] == e2;
      DigitsRoundTrip(f1 / 1000);
      DigitsRoundTrip(f2 / 1000);
      DigitsRoundTrip(t1 / 1000);
      DigitsRoundTrip(t2 / 1000);
    }
  }

  /**
   * After the fill, with the clock past the first second, every posted record
   * carries its metric's stamped, non-zero time.
   */
  lemma PostedMetricsCarryTime(ms: seq<Metric>, nows: seq<nat>, i: nat)
    requires |nows| == |ms| && PastFirstSecond(nows)
    requires i < |ms|
    ensures |StampAll(ms, nows)| == |ms| && |MetricsValue(StampAll(ms, nows)).items| == |ms|
    ensures StampAll(ms, nows)[i].time.Some? && StampAll(ms, nows)[i].time.value != 0
    ensures ("time", Num(StampAll(ms, nows)[i].time.value)) in MetricsValue(StampAll(ms, nows)).items[i].fields
  {
    StampAllTimed(ms, nows, i);
  }

  /**
   * The table rows of the two metric posters: what `PostHostMetrics` and
   * `PostServiceMetricsCall` send, and whether the callback is forwarded.
   */
  lemma MetricPosterRoutes(serviceName: string, ms: seq<Metric>, hasCallback: bool)
    ensures RouteOf(PostMetrics(ms), hasCallback) == Route("/tsdb", POST, MetricsValue(ms), false)
    ensures RouteOf(PostServiceMetrics(serviceName, ms), hasCallback)
              == Route("/services/" + serviceName + "/tsdb", POST, MetricsValue(ms), true)
  {
  }

  // ---------------------------------------------------------------------------
  // Calling a public method

  /** A public method other than the metric posters: route, then `api`. */
  method Call(c: Client, e: Endpoint, cb: Option<Callback<ResBody, Error>>,
              enc: Encoder, errorField: ErrorField, reply: Reply)
    returns (opt: RequestOption, d: Delivery<ResBody, Error>)
    requires !e.PostMetrics? && !e.PostServiceMetrics?
    ensures IsRequestFor(opt, c, RouteOf(e, cb.Some?).path, RouteOf(e, cb.Some?).verb, RouteOf(e, cb.Some?).data, enc)
    ensures d == ThenCatch(Classify(reply, errorField), if RouteOf(e, cb.Some?).forwardsCallback then cb else None)
  {
    var r := RouteOf(e, cb.Some?);
    opt, d := Api(c, r.path, r.verb, r.data, if r.forwardsCallback then cb else None, enc, errorField, reply);
  }

  /**
   * `postMetrics`: stamps the caller's metrics in place, one clock reading per
   * metric, then posts them without the callback.
   */
  method PostHostMetrics(c: Client, metrics: array<Metric>, nows: seq<nat>, cb: Option<Callback<ResBody, Error>>,
                         enc: Encoder, errorField: ErrorField, reply: Reply)
    returns (opt: RequestOption, d: Delivery<ResBody, Error>)
    requires |nows| == metrics.Length
    modifies metrics
    ensures metrics[..] == StampAll(old(metrics[..]), nows)
    ensures PastFirstSecond(nows) ==> forall i :: 0 <= i < metrics.Length ==> HasTime(metrics[i])
    ensures IsRequestFor(opt, c, "/tsdb", POST, MetricsValue(metrics[..]), enc)
    ensures d == ThenCatch(Classify(reply, errorField), None)
  {
    StampMetrics(metrics, nows);
    opt, d := Api(c, "/tsdb", POST, MetricsValue(metrics[..]), None, enc, errorField, reply);
  }

  /**
   * `postServiceMetrics`: stamps the caller's metrics in place, one clock reading
   * per metric, then posts them with the callback.
   */
  method PostServiceMetricsCall(c: Client, serviceName: string, metrics: array<Metric>, nows: seq<nat>,
                                cb: Option<Callback<ResBody, Error>>,
                                enc: Encoder, errorField: ErrorField, reply: Reply)
    returns (opt: RequestOption, d: Delivery<ResBody, Error>)
    requires |nows| == metrics.Length
    modifies metrics
    ensures metrics[..] == StampAll(old(metrics[..]), nows)
    ensures PastFirstSecond(nows) ==> forall i :: 0 <= i < metrics.Length ==> HasTime(metrics[i])
    ensures IsRequestFor(opt, c, "/services/" + serviceName + "/tsdb", POST, MetricsValue(metrics[..]), enc)
    ensures d == ThenCatch(Classify(reply, errorField), cb)
  {
    StampMetrics(metrics, nows);
    opt, d := Api(c, "/services/" + serviceName + "/tsdb", POST, MetricsValue(metrics[..]), cb, enc, errorField, reply);
  }
}
