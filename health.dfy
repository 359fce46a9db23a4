/**
 * The liveness responder the hosting platform polls: only its choice of
 * status code and body is modelled, not the HTTP server thread around it.
 */
module Health {
  datatype Response = Response(status: int, body: string)

  /** A HEAD request: 200 on `/` and `/health`, 404 on every other path, no body. */
  function Head(path: string): (r: Response)
    ensures r.status == 200 <==> (path == "/" || path == "/health")
    ensures r.status == 200 || r.status == 404
    ensures r.body == ""
  {
    if path == "/" || path == "/health" then Response(200, "") else Response(404, "")
  }

  /** A GET request: always 200; the body is "ok" on `/health` and "running" elsewhere. */
  function Get(path: string): (r: Response)
    ensures r.status == 200
    ensures r.body == "ok" <==> path == "/health"
    ensures r.body == "ok" || r.body == "running"
  {
    Response(200, if path == "/health" then "ok" else "running")
  }

  /** The two request kinds agree on `/` and `/health` and disagree on every other path. */
  lemma HeadAndGetDisagreeOffRoute(path: string)
    ensures Head(path).status == Get(path).status <==> (path == "/" || path == "/health")
  {
  }
}
