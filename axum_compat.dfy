/** The `vite-embed-axum` adapter: how one embedded record becomes a response,
    how the development proxy's result becomes a status, and which handler each
    router picks for a request path. */
module AxumCompat {
  import opened Wrappers
  import opened Text
  import opened Embed

  /** Header names as the `http` crate spells them. */
  const ContentType := "content-type"
  const ContentEncoding := "content-encoding"

  /** `route_static_frontend`: insert the record's MIME type as
      `Content-Type`; for gzipped data also insert `Content-Encoding: gzip`;
      answer with the stored bytes as they are. */
  method RouteStaticFrontend(asset: ViteData) returns (headers: map<string, string>, body: seq<byte>)
    ensures ContentType in headers && headers[ContentType] == asset.mimeType
    ensures ContentEncoding in headers <==> asset.data.CompressedData?
    ensures ContentEncoding in headers ==> headers[ContentEncoding] == "gzip"
    ensures headers.Keys <= {ContentType, ContentEncoding}
    ensures body == asset.data.bytes
  {
    headers := map[];
    headers := headers[ContentType := asset.mimeType];
    match asset.data {
      case CompressedData(data) =>
        headers := headers[ContentEncoding := "gzip"];
        body := data;
      case UncompressedData(data) =>
        body := data;
    }
  }

  /** An HTTP status code as `StatusCode::from_u16` accepts it. */
  type StatusCode = n: int | 100 <= n <= 999 witness 200

  const BadGateway: StatusCode := 502

  /** What the proxy handler does: answer with the dev server's text, fail
      with a status, or panic (`StatusCode::from_u16(code).unwrap()` on a code
      outside 100..=999). */
  datatype ProxyReply = Forward(body: string) | Failure(status: StatusCode) | Panic

  /** The `match` at the end of `vite_proxy`: a body is passed on, an error
      status from the dev server is passed on as the reply's status, and every
      other failure becomes 502 Bad Gateway. */
  function MapProxyResult(response: Result<string, RequestError>): (r: ProxyReply)
    ensures response.Ok? ==> r == Forward(response.value)
    ensures response.Err? && response.error.Status? && 100 <= response.error.code <= 999 ==>
              r == Failure(response.error.code)
    ensures response.Err? && response.error.Status? && !(100 <= response.error.code <= 999) ==> r == Panic
    ensures response.Err? && response.error.Transport? ==> r == Failure(BadGateway)
  {
    match response
    case Ok(body) => Forward(body)
    case Err(Status(code, _)) => if 100 <= code <= 999 then Failure(code) else Panic
    case Err(_) => Failure(BadGateway)
  }

  /** `vite_proxy`: fetch the request's path from the dev server and map the
      outcome. `get` stands for the blocking HTTP call. */
  function ViteProxy(get: string -> Result<string, RequestError>, path: string): (r: ProxyReply)
    ensures var response := get(DevOrigin + path);
            && (response.Ok? ==> r == Forward(response.value))
            && (response.Err? && response.error.Status? && 100 <= response.error.code <= 999 ==>
                  r == Failure(response.error.code))
            && (response.Err? && response.error.Status? && !(100 <= response.error.code <= 999) ==> r == Panic)
            && (response.Err? && response.error.Transport? ==> r == Failure(BadGateway))
  {
    MapProxyResult(ViteProxyDev(get, path))
  }

  /** The two router variants: development serves `/` from the first record
      and proxies the rest; production serves the table. */
  datatype Router = DevRouter(root: ViteData) | ProdRouter(routes: map<string, ViteData>)

  /** The crate features enabled at build time. */
  datatype Features = Features(dev: bool, prod: bool)

  /** Why no router can be had: no `vite_router` is compiled in, or the
      development router was given an empty table (`data[0]` panics). */
  datatype RouterError = NoRouterCompiled | EmptyEmbed

  /** The production router's fold: one GET route per record, added in table
      order, so a later record with the same path takes the route. */
  function RouteTable(data: ViteEmbed): (routes: map<string, ViteData>)
    ensures forall p :: p in routes <==> exists i :: 0 <= i < |data| && data[i].path == p
    ensures forall p :: p in routes ==> routes[p].path == p
  {
    if data == [] then map[]
    else
      var last := data[|data| - 1];
      var before := RouteTable(data[..|data| - 1]);
      assert forall i :: 0 <= i < |data| - 1 ==> data[..|data| - 1][i] == data[i];
      before[last.path := last]
  }

  /** When no two records share a path, each record owns the route of its
      path. */
  lemma {:induction false} RouteTableDistinct(data: ViteEmbed, i: nat)
    requires forall j, k :: 0 <= j < k < |data| ==> data[j].path != data[k].path
    requires i < |data|
    ensures data[i].path in RouteTable(data) && RouteTable(data)[data[i].path] == data[i]
  {
    if i < |data| - 1 {
      var before := data[..|data| - 1];
      RouteTableDistinct(before, i);
      assert before[i] == data[i];
    }
  }

  /** `vite_router`: the development version whenever the `dev` feature is on
      (it reads `data[0]`), the production version with `prod` alone, and none
      otherwise. */
  function ViteRouter(features: Features, data: ViteEmbed): (r: Result<Router, RouterError>)
    ensures features.dev && |data| > 0 ==> r == Ok(DevRouter(data[0]))
    ensures features.dev && |data| == 0 ==> r == Err(EmptyEmbed)
    ensures !features.dev && features.prod ==> r == Ok(ProdRouter(RouteTable(data)))
    ensures !features.dev && !features.prod ==> r == Err(NoRouterCompiled)
  {
    if features.dev then
      if |data| > 0 then Ok(DevRouter(data[0])) else Err(EmptyEmbed)
    else if features.prod then Ok(ProdRouter(RouteTable(data)))
    else Err(NoRouterCompiled)
  }

  /** The handler a GET request for `path` reaches. */
  datatype Handler = Static(asset: ViteData) | Proxy(path: string) | NoRoute

  /** Route a GET request: the development router serves `/` from its record
      and forwards every other path; the production router serves exactly the
      paths in its table and has no route for any other. */
  function Route(router: Router, path: string): (h: Handler)
    ensures router.DevRouter? ==> h == if path == "/" then Static(router.root) else Proxy(path)
    ensures router.ProdRouter? ==> (h.Static? <==> path in router.routes)
    ensures router.ProdRouter? && h.Static? ==> h.asset == router.routes[path]
    ensures router.ProdRouter? ==> !h.Proxy?
  {
    match router
    case DevRouter(root) => if path == "/" then Static(root) else Proxy(path)
    case ProdRouter(routes) => if path in routes then Static(routes[path]) else NoRoute
  }

  /** The response to a GET request for `path`: the headers and bytes of a
      static record, the proxy's reply, or no route. */
  datatype Reply = Served(headers: map<string, string>, body: seq<byte>) | Proxied(reply: ProxyReply) | NotFound

  /** Answer a GET request for `path` through `router`. */
  method Serve(router: Router, path: string, get: string -> Result<string, RequestError>) returns (reply: Reply)
    ensures Route(router, path).NoRoute? <==> reply.NotFound?
    ensures Route(router, path).Proxy? ==> reply == Proxied(ViteProxy(get, path))
    ensures Route(router, path).Static? ==>
              var asset := Route(router, path).asset;
              && reply.Served?
              && ContentType in reply.headers && reply.headers[ContentType] == asset.mimeType
              && (ContentEncoding in reply.headers <==> asset.data.CompressedData?)
              && reply.body == asset.data.bytes
  {
    match Route(router, path) {
      case Static(asset) =>
        var headers, body := RouteStaticFrontend(asset);
        reply := Served(headers, body);
      case Proxy(p) =>
        reply := Proxied(ViteProxy(get, p));
      case NoRoute =>
        reply := NotFound;
    }
  }
}
