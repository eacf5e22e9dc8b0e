/** The runtime crate `vite-embed`: the records the macros emit and the URL the
    development proxy fetches. */
module Embed {
  import opened Wrappers
  import opened Text

  /** The bytes of one embedded file, tagged with whether they were gzipped at
      build time. Both variants carry the stored bytes as `bytes`. */
  datatype ViteFileData = CompressedData(bytes: seq<byte>) | UncompressedData(bytes: seq<byte>)

  /** One embedded file: the HTTP path it is served at, its data and its MIME
      type as text. */
  datatype ViteData = ViteData(path: string, data: ViteFileData, mimeType: string)

  /** The whole embedded frontend: records in the order the macro emitted them. */
  type ViteEmbed = seq<ViteData>

  /** Origin of the Vite development server. */
  const DevOrigin := "http://localhost:5173"

  /** A Rust `u16`. */
  type u16 = n: int | 0 <= n < 0x1_0000

  /** `ureq::Error`: the server answered with an error status, or the request
      failed below HTTP (connection, I/O, a body that is not text). */
  datatype RequestError = Status(code: u16, response: string) | Transport(message: string)

  /** The URL the development proxy requests for a path: the origin and the
      path side by side, with no separator added. */
  function ProxyUrl(path: string): (url: string)
    ensures |url| == |DevOrigin| + |path|
    ensures url[..|DevOrigin|] == DevOrigin && url[|DevOrigin|..] == path
  {
    DevOrigin + path
  }

  /** `vite_proxy_dev`: GET the proxy URL and read the body as text. `get`
      stands for the HTTP client call. */
  function ViteProxyDev(get: string -> Result<string, RequestError>, path: string): (r: Result<string, RequestError>)
    ensures r == get(DevOrigin + path)
  {
    get(ProxyUrl(path))
  }
}
