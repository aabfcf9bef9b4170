/**
 * The request handler's decisions: `check_auth` and which operation
 * `do_GET`, `do_POST` and `do_OPTIONS` dispatch to, with the HTTP status
 * the reply is sent with.  Parsing of the URL and its query string is
 * outside the model: a GET arrives with its path already separated and
 * with the `lines` parameter already looked up and converted.
 */
module Routing {
  import opened Wrappers
  import opened Configuration
  import opened Control

  /** `int(params.get("lines", [50])[0])`: absent, an integer, or text `int()` refuses. */
  datatype LinesParam = Absent | Lines(n: int) | NotAnInteger

  /** The operation a request is answered by. */
  datatype Action =
    | ServePage
    | Unauthorized
    | NotFound
    | ReportStatus
    | ListModels
    | ReportStats
    | TailLogs(lines: int)
    | ReportNetwork
    | ReportVersion
    | StopModel
    | StartModel(id: string)
    | LinesRejected
    | Preflight

  /** `lines` when the query does not give one. */
  const DefaultLines: int := 50

  const PublicPaths: set<string> := {"/", "/index.html"}

  const ProtectedGetPaths: set<string> :=
    {"/api/status", "/api/models", "/api/stats", "/api/logs", "/api/network", "/api/version"}

  const StartPrefix: string := "/api/start/"

  /** `check_auth`: the `X-API-Key` header, or "" when absent, must equal the configured key. */
  function CheckAuth(header: Option<string>, apiKey: string): (r: bool)
    ensures r <==> (header.Some? && header.value == apiKey) || (header.None? && apiKey == "")
  {
    header.GetOr("") == apiKey
  }

  /** `path.startswith(prefix)`. */
  predicate StartsWith(path: string, prefix: string) {
    |prefix| <= |path| && path[..|prefix|] == prefix
  }

  /**
   * `path.split("/")[-1]`: the text after the last '/', or all of `path`
   * when it has none.
   */
  function LastSegment(path: string): (r: string)
    ensures '/' !in r
    ensures |r| <= |path| && path[|path| - |r|..] == r
    ensures |r| < |path| ==> path[|path| - |r| - 1] == '/'
  {
    if path == [] then []
    else if path[|path| - 1] == '/' then []
    else LastSegment(path[..|path| - 1]) + [path[|path| - 1]]
  }

  /** A segment written after a '/' is read back as the last segment. */
  lemma {:induction false} LastSegmentAfterSlash(front: string, id: string)
    requires |front| > 0 && front[|front| - 1] == '/' && '/' !in id
    ensures LastSegment(front + id) == id
  {
    if id == [] {
      assert front + id == front;
    } else {
      var n := |id| - 1;
      assert (front + id)[..|front + id| - 1] == front + id[..n];
      assert id[n] in id;
      LastSegmentAfterSlash(front, id[..n]);
      assert id[..n] + [id[n]] == id;
    }
  }

  /** `do_GET` on the parsed path. */
  function RouteGet(path: string, lines: LinesParam, header: Option<string>, apiKey: string): (r: Action)
    ensures path in PublicPaths ==> r == ServePage
    ensures path !in PublicPaths && !CheckAuth(header, apiKey) ==> r == Unauthorized
    ensures path !in PublicPaths && !(path in ProtectedGetPaths) && CheckAuth(header, apiKey) ==> r == NotFound
    ensures r == Unauthorized || r == NotFound || r == ServePage || CheckAuth(header, apiKey)
    ensures r.TailLogs? ==> path == "/api/logs" && (lines == Absent ==> r.lines == DefaultLines)
    ensures path == "/api/logs" && CheckAuth(header, apiKey) && lines.Lines? ==> r == TailLogs(lines.n)
    ensures r == LinesRejected <==> path == "/api/logs" && CheckAuth(header, apiKey) && lines == NotAnInteger
    ensures r == NotFound ==> path !in PublicPaths && path !in ProtectedGetPaths
    ensures CheckAuth(header, apiKey) && path == "/api/status" ==> r == ReportStatus
    ensures CheckAuth(header, apiKey) && path == "/api/models" ==> r == ListModels
    ensures CheckAuth(header, apiKey) && path == "/api/stats" ==> r == ReportStats
    ensures CheckAuth(header, apiKey) && path == "/api/logs" && lines == Absent ==> r == TailLogs(DefaultLines)
    ensures CheckAuth(header, apiKey) && path == "/api/network" ==> r == ReportNetwork
    ensures CheckAuth(header, apiKey) && path == "/api/version" ==> r == ReportVersion
  {
    if path in PublicPaths then ServePage
    else if !CheckAuth(header, apiKey) then Unauthorized
    else if path == "/api/status" then ReportStatus
    else if path == "/api/models" then ListModels
    else if path == "/api/stats" then ReportStats
    else if path == "/api/logs" then
      match lines
      case Absent => TailLogs(DefaultLines)
      case Lines(n) => TailLogs(n)
      case NotAnInteger => LinesRejected
    else if path == "/api/network" then ReportNetwork
    else if path == "/api/version" then ReportVersion
    else NotFound
  }

  /** `do_POST` on the raw request path (query string included). */
  function RoutePost(path: string, header: Option<string>, apiKey: string): (r: Action)
    ensures !CheckAuth(header, apiKey) ==> r == Unauthorized
    ensures CheckAuth(header, apiKey) && path == "/api/stop" ==> r == StopModel
    ensures CheckAuth(header, apiKey) && path != "/api/stop" && !StartsWith(path, StartPrefix) ==> r == NotFound
    ensures r.StartModel? ==> CheckAuth(header, apiKey) && StartsWith(path, StartPrefix) && r.id == LastSegment(path)
    ensures CheckAuth(header, apiKey) && path != "/api/stop" && StartsWith(path, StartPrefix) ==>
              r == StartModel(LastSegment(path))
    ensures r == NotFound ==> path != "/api/stop" && !StartsWith(path, StartPrefix)
  {
    if !CheckAuth(header, apiKey) then Unauthorized
    else if path == "/api/stop" then StopModel
    else if StartsWith(path, StartPrefix) then StartModel(LastSegment(path))
    else NotFound
  }

  /** `do_OPTIONS`: the CORS preflight, answered without a key. */
  function RouteOptions(): (r: Action)
    ensures StatusCode(r, false) == Some(200) && StatusCode(r, true) == Some(200)
  {
    Preflight
  }

  /**
   * The actions whose operation can raise: `get_status`, `get_models`,
   * `start_model` and `stop_model` (a `KeyError` on a model's name, or the
   * kill escalation failing).
   */
  predicate MayRaise(a: Action) {
    a.ReportStatus? || a.ListModels? || a.StartModel? || a.StopModel?
  }

  /**
   * The status line the action is answered with, given whether its
   * operation raised; `None` when an exception escapes the handler (the
   * `ValueError` from `int()`, or one from the operation) and no reply is
   * sent.
   */
  function StatusCode(a: Action, raised: bool): (r: Option<int>)
    ensures r == Some(401) <==> a == Unauthorized
    ensures r == Some(404) <==> a == NotFound
    ensures r.None? <==> a == LinesRejected || (raised && MayRaise(a))
    ensures r.Some? ==> r.value in {200, 401, 404}
  {
    match a
    case Unauthorized => Some(401)
    case NotFound => Some(404)
    case LinesRejected => None
    case _ => if raised && MayRaise(a) then None else Some(200)
  }

  /** `GET /api/status` is left unanswered exactly when `get_status` raises on a nameless model. */
  lemma StatusUnanswered(c: Config, s: State, poll: PollOutcome, connect: ConnectOutcome, now: int)
    requires Inv(c, s)
    ensures StatusCode(ReportStatus, StatusStep(c, s, poll, connect, now).outcome.Raised?).None?
        <==> s.process.Some? && poll == StillRunning && NameOf(c, s.model.value).None?
  {
  }

  /** `POST /api/stop` is left unanswered exactly when `stop_model` raises. */
  lemma StopUnanswered(c: Config, s: State, wait: WaitOutcome, tsStopping: string, tsStopped: string)
    requires Inv(c, s)
    ensures StatusCode(StopModel, StopStep(c, s, wait, tsStopping, tsStopped).outcome.Raised?).None?
        <==> s.process.Some? && (StoppedName(c, s.model.value).None? || (wait.TimesOut? && wait.kill.KillFails?))
  {
  }

  /** `GET /api/models` is left unanswered exactly when some model has no name. */
  lemma ModelsUnanswered(ms: ModelTable)
    ensures StatusCode(ListModels, GetModels(ms).None?).None?
        <==> exists i :: 0 <= i < |ms| && "name" !in ms[i].1.fields
  {
  }

  /** Authorised, `POST /api/start/<id>` starts exactly model `id`, whatever it is, if it has no '/'. */
  lemma StartTakesLastSegment(id: string, header: Option<string>, apiKey: string)
    requires CheckAuth(header, apiKey) && '/' !in id
    ensures RoutePost(StartPrefix + id, header, apiKey) == StartModel(id)
  {
    assert (StartPrefix + id)[..|StartPrefix|] == StartPrefix;
    LastSegmentAfterSlash(StartPrefix, id);
  }
}
