/**
 * The API request counter (backend/middlewares/api_request_logger.py): after the downstream
 * handler has produced its response, a request whose path starts with "/api/" bumps the count
 * of its (method, endpoint) row in the `APIRequestLog` table (backend/analytics/models.py);
 * the response is passed back untouched.
 *
 * The table is a map from (method, endpoint) to count, which makes the `unique_together`
 * constraint hold by construction. The `last_requested` timestamp is not modelled.
 */
module RequestLogger {

  datatype Request = Request(httpMethod: string, path: string)

  /** The key of an `APIRequestLog` row. */
  datatype Endpoint = Endpoint(httpMethod: string, endpoint: string)

  const ApiPrefix: string := "/api/"

  /** `str.startswith`. */
  predicate StartsWith(s: string, prefix: string) {
    |prefix| <= |s| && s[..|prefix|] == prefix
  }

  function EndpointOf(r: Request): Endpoint {
    Endpoint(r.httpMethod, r.path)
  }

  /** The requests the middleware counts. */
  predicate Tracked(r: Request) {
    StartsWith(r.path, ApiPrefix)
  }

  /** The table after one request has gone through the middleware. */
  function Counted(log: map<Endpoint, int>, r: Request): (after: map<Endpoint, int>)
    ensures !Tracked(r) ==> after == log
    ensures Tracked(r) ==>
      && EndpointOf(r) in after
      && after[EndpointOf(r)] == (if EndpointOf(r) in log then log[EndpointOf(r)] else 0) + 1
    ensures forall e | e in log :: e in after
    ensures forall e | e != EndpointOf(r) :: (e in after <==> e in log)
    ensures forall e | e in log && e != EndpointOf(r) :: after[e] == log[e]
  {
    if Tracked(r) then
      var e := EndpointOf(r);
      log[e := (if e in log then log[e] else 0) + 1]
    else log
  }

  /** The table after a sequence of requests, in order. */
  function Replay(log: map<Endpoint, int>, rs: seq<Request>): map<Endpoint, int> {
    if rs == [] then log else Counted(Replay(log, rs[..|rs| - 1]), rs[|rs| - 1])
  }

  /** How many of `rs` are tracked requests to `e`. */
  function Hits(rs: seq<Request>, e: Endpoint): nat {
    if rs == [] then 0
    else Hits(rs[..|rs| - 1], e) + (if Tracked(rs[|rs| - 1]) && EndpointOf(rs[|rs| - 1]) == e then 1 else 0)
  }

  /** Starting from an empty table, a row exists exactly for the endpoints some tracked request
      reached, and its count is the number of such requests. */
  lemma {:induction false} ReplayCounts(rs: seq<Request>)
    ensures forall e :: e in Replay(map[], rs) <==> Hits(rs, e) > 0
    ensures forall e | e in Replay(map[], rs) :: Replay(map[], rs)[e] == Hits(rs, e)
  {
    if rs != [] {
      ReplayCounts(rs[..|rs| - 1]);
    }
  }

  /** A request outside "/api/" never creates or changes a row. */
  lemma {:induction false} UntrackedLeaveLog(log: map<Endpoint, int>, rs: seq<Request>)
    requires forall i | 0 <= i < |rs| :: !Tracked(rs[i])
    ensures Replay(log, rs) == log
  {
    if rs != [] {
      UntrackedLeaveLog(log, rs[..|rs| - 1]);
    }
  }

  /** The middleware together with the `APIRequestLog` table it writes. */
  class ApiRequestLogger {
    var log: map<Endpoint, int>

    constructor ()
      ensures log == map[]
    {
      log := map[];
    }

    /**
     * `__call__`: `response` is what the downstream handler returned for `request`; the
     * middleware returns it unchanged and then counts the request. `get_or_create` starts a new
     * row at the column default 0, which the increment makes 1.
     */
    method Call<Response>(request: Request, response: Response) returns (r: Response)
      modifies this
      ensures r == response
      ensures log == Counted(old(log), request)
    {
      r := response;
      if StartsWith(request.path, ApiPrefix) {
        var key := Endpoint(request.httpMethod, request.path);
        var count := if key in log then log[key] else 0;
        count := count + 1;
        log := log[key := count];
      }
    }
  }
}
