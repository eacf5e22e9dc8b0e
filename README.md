# vite-embed in Dafny

This project models the core of `vite-embed`. That crate embeds a Vite-built
web frontend into a Rust binary and serves it through axum. The model has
three parts.

- **The procedural macros** (`vite-embed-macro`):
  - `generate_vite_dev` reads the HTML template. It replaces every
    `<!--vite-embed script injection-->` marker with two module script tags
    that point at the Vite dev server, `http://localhost:5173`. It emits a
    single uncompressed `text/html` record served at `/`.
  - `generate_vite_prod` reads Vite's `manifest.json` and finds the entry
    chunk. It lists the files to embed: `index.html`, `favicon.ico`, the
    entry's `file`, its `css`, its `assets` and the `file` of each direct
    `dynamicImports` chunk. It reads each file and guesses its MIME type. It
    gzips everything that is neither an image nor a video. It emits one
    record per file. The template comes first and is served at `/`; every
    other file is served at `/` plus its name.
  - The argument helpers:
    - `verify_sep` checks the comma between arguments.
    - `unwrap_string_lit` strips the quotes from a literal.
    - `parse_tokens_html` and `parse_tokens_prod` match the shape of the
      token stream. They substitute `$CARGO_MANIFEST_DIR` in path arguments.
- **The runtime types** (`vite-embed`): `ViteFileData`, `ViteData`,
  `ViteEmbed`, and the URL that the development proxy fetches.
- **The axum adapter** (`vite-embed-axum`):
  - `route_static_frontend` turns one record into headers and a body.
  - `vite_proxy` maps the dev server's answer to a status.
  - There are two `vite_router` variants:
    - The development router serves `/` from the first record and proxies
      every other path.
    - The production router registers one GET route per record.

Every panic of the macros becomes an `Err` of `MacroArgs.MacroError`,
except those listed under "## Left out". The panic on an unset
`CARGO_MANIFEST_DIR` is included: the variable's value is an `Option`. Code
the crate calls but does not define becomes a function-typed parameter. This
covers file reads, the environment variable, JSON parsing, gzip, MIME
guessing and the HTTP client. The JSON manifest is a `Json.Value` whose
object fields are listed in iteration order. Each method that carries a loop
of the source is proved equal to a specification function. Lemmas state
what the source promises about those functions.

Modules:

- `Wrappers`: `Option`, `Result`, `Outcome`.
- `Text`: `str::replace` and UTF-8 `as_bytes`.
- `Embed`: the runtime types and the proxy URL.
- `Json`: the part of `serde_json::Value` that is used.
- `MacroArgs`: argument handling.
- `DevShell`: `generate_vite_dev`.
- `ProdBundle`: `generate_vite_prod`.
- `AxumCompat`: the axum adapter.
- `Pipeline`: properties of the macros and the routers taken together.

## Model

| member | source | states |
|---|---|---|
| MacroArgs.VerifySep | vite-embed-macro/src/lib.rs:3-10 | passes exactly when the separator is `,`; otherwise aborts naming the two argument positions |
| MacroArgs.Quote | vite-embed-macro/src/lib.rs:12-23 | a quoted string is a string literal two characters longer, and unwrapping it gives the string back |
| MacroArgs.Unquote | vite-embed-macro/src/lib.rs:18-22 | for a literal of two or more characters the result is exactly what lies between the quotes; a lone `"` gives the empty string |
| MacroArgs.UnwrapStringLit | vite-embed-macro/src/lib.rs:12-23 | succeeds exactly when the text starts and ends with `"`, returns the text between the quotes, and otherwise aborts with the literal's text |
| MacroArgs.DevArguments | vite-embed-macro/src/lib.rs:70-91 | succeeds exactly for literal, punctuation, literal with a comma, two quoted literals and a set `CARGO_MANIFEST_DIR`; the HTML path has `$CARGO_MANIFEST_DIR` replaced and the entry point is unquoted; each failing check gives its own error, in the order the checks run (shape, separator, HTML literal, environment variable, entry literal) |
| MacroArgs.ParseTokensHtml | vite-embed-macro/src/lib.rs:70-91 | yields what `DevArguments` specifies, success and every error |
| MacroArgs.ProdArgument | vite-embed-macro/src/lib.rs:226-240 | succeeds exactly for one quoted literal and a set `CARGO_MANIFEST_DIR`, giving the literal's text with `$CARGO_MANIFEST_DIR` replaced; a wrong shape, a bad literal and an unset variable abort with their own errors, in that order |
| MacroArgs.ParseTokensProd | vite-embed-macro/src/lib.rs:226-240 | yields what `ProdArgument` specifies |
| Text.ReplaceAll | vite-embed-macro/src/lib.rs:37-45 | `str::replace` never shrinks the text when the replacement is at least as long as the pattern, never grows it when it is at most as long, and is the identity when the replacement equals the pattern |
| Text.ReplaceAbsent | vite-embed-macro/src/lib.rs:37-45 | replacing a pattern that does not occur leaves the text unchanged |
| Text.ReplaceFirst | vite-embed-macro/src/lib.rs:37-45 | the first occurrence is replaced, the text before it is copied and the scan resumes after it |
| Text.NoMatchBefore | vite-embed-macro/src/lib.rs:37-45 | a pattern whose first character does not recur cannot start an occurrence inside a pattern-free prefix |
| Text.ReplaceJoin | vite-embed-macro/src/lib.rs:37-45 | every occurrence of a non-self-overlapping pattern is replaced: pieces joined by the pattern become the same pieces joined by the replacement |
| Text.MatchAtTail | vite-embed-macro/src/lib.rs:37-45 | an occurrence in the tail is an occurrence one position later in the whole text |
| Text.CharUtf8 | vite-embed-macro/src/lib.rs:47 | a character takes one to four bytes, and one byte exactly when it is ASCII |
| Text.Utf8 | vite-embed-macro/src/lib.rs:47 | the encoding is never shorter than the text; ASCII text is one byte per character, equal to its code |
| Text.Utf8Append | vite-embed-macro/src/lib.rs:47 | encoding a concatenation is concatenating the encodings |
| DevShell.EntryPointVerbatim | vite-embed-macro/src/lib.rs:39-43 | the injected tags contain the entry point verbatim, right after the dev server origin and `/` |
| DevShell.MarkerHeadUnique | vite-embed-macro/src/lib.rs:38 | the marker's first character does not recur in it, so markers never overlap |
| DevShell.DevHtml | vite-embed-macro/src/lib.rs:37-45 | the rewritten template is never shorter than the template, and a template without the marker is emitted unchanged |
| DevShell.DevHtmlEveryMarker | vite-embed-macro/src/lib.rs:37-45 | every marker of the template is replaced by the client tag and the entry tag, and the text between markers is kept |
| DevShell.DevHtmlOneMarker | vite-embed-macro/src/lib.rs:37-45 | a template with one marker becomes the text before it, the two tags, and the text after it |
| DevShell.DevTable | vite-embed-macro/src/lib.rs:47-55 | exactly one record, at `/`, uncompressed, `text/html`, holding the UTF-8 bytes of the rewritten template, at least as many bytes as the template has characters |
| DevShell.GenerateViteDev | vite-embed-macro/src/lib.rs:27-58 | argument errors and an unreadable template abort with their own errors; otherwise the result is `DevTable` of the template read |
| Embed.ProxyUrl | vite-embed/src/lib.rs:27 | the proxied URL is the dev server origin followed by the request path, unchanged |
| Embed.ViteProxyDev | vite-embed/src/lib.rs:26-30 | the result is the HTTP client's answer for `http://localhost:5173` followed by the path |
| ProdBundle.FirstOrTextPlain | vite-embed-macro/src/lib.rs:144-147 | the guessed type when there is one, `text/plain` otherwise |
| ProdBundle.EntryIndex | vite-embed-macro/src/lib.rs:111-119 | finds the first chunk, in iteration order, with a boolean `isEntry`; none exactly when no chunk has one |
| ProdBundle.Texts | vite-embed-macro/src/lib.rs:126-136 | defined exactly when every item is a JSON string, and then gives those strings in order |
| ProdBundle.ImportFiles | vite-embed-macro/src/lib.rs:138-142 | succeeds exactly when every key names a chunk with a string `file`, and then gives those files in order; failures are import errors |
| ProdBundle.FirstImportError | vite-embed-macro/src/lib.rs:138-142 | the build aborts at the first dynamic import that does not resolve |
| ProdBundle.FileList | vite-embed-macro/src/lib.rs:121-142 | succeeds exactly when the entry `file` is a string, all css and asset items are strings and every import resolves; the list is the template, the favicon, the entry file, the css, the assets, then the imported files |
| ProdBundle.PushStrings | vite-embed-macro/src/lib.rs:126-136 | appends the strings of an array in order, or aborts on a non-string item |
| ProdBundle.PushImportFiles | vite-embed-macro/src/lib.rs:138-142 | appends the imported chunks' files in order, or aborts as `ImportFiles` does |
| ProdBundle.CollectFileNames | vite-embed-macro/src/lib.rs:121-142 | yields what `FileList` specifies |
| ProdBundle.FirstUnreadable | vite-embed-macro/src/lib.rs:153-158 | the least index of a file that cannot be read, or the list length when all can be read |
| ProdBundle.GuessMimeTypes | vite-embed-macro/src/lib.rs:144-147 | one MIME type per file name, in order, `text/plain` when none is guessed |
| ProdBundle.LoadFiles | vite-embed-macro/src/lib.rs:149-170 | aborts exactly when some file cannot be read, naming the first such file; otherwise images and videos keep the bytes as read, every other file is gzipped, and the gzip flag records which |
| ProdBundle.HttpPaths | vite-embed-macro/src/lib.rs:172-184 | `/` for the template, `/` plus the name for every other file |
| ProdBundle.RecordsFor | vite-embed-macro/src/lib.rs:149-213 | built exactly when every file can be read, and otherwise the error names the first unreadable file; record `i` is at `/` for the template and `/` plus the name otherwise, with the file's MIME type, gzipped exactly when it is neither image nor video |
| ProdBundle.BuildRecords | vite-embed-macro/src/lib.rs:144-213 | yields one record per file, in order, as `RecordsFor` specifies |
| ProdBundle.AssetTable | vite-embed-macro/src/lib.rs:96-216 | a manifest that is not an object and a manifest without an entry each abort with their own error; a file list that fails aborts with its error; a built table has at least three records, the first at `/`, every path starting with `/` |
| ProdBundle.AssetTableRecords | vite-embed-macro/src/lib.rs:149-213 | the table is built exactly when every listed file can be read, and otherwise the error names the first unreadable file; record `i` holds file `i` at its path, with the file's MIME type, gzipped exactly when it is neither image nor video |
| ProdBundle.BuildAssetTable | vite-embed-macro/src/lib.rs:111-213 | yields what `AssetTable` specifies |
| ProdBundle.GenerateViteProd | vite-embed-macro/src/lib.rs:96-216 | argument errors, an unreadable manifest and invalid JSON abort with their own errors; otherwise the result is the table `AssetTable` specifies |
| AxumCompat.RouteStaticFrontend | vite-embed-axum/src/axum_compat.rs:10-27 | `content-type` is the record's MIME type; `content-encoding: gzip` is present exactly for compressed data; no other header is set; the body is the stored bytes |
| AxumCompat.MapProxyResult | vite-embed-axum/src/axum_compat.rs:35-39 | a body is passed on; an error status is passed on when it is a valid status code, and the handler panics when it is not; any other failure becomes 502 |
| AxumCompat.ViteProxy | vite-embed-axum/src/axum_compat.rs:30-40 | fetches the origin followed by the path; a body is forwarded, an error status in 100..=999 becomes that status, any other status panics, and a transport failure becomes 502 |
| AxumCompat.RouteTable | vite-embed-axum/src/axum_compat.rs:49-58 | the routes are exactly the records' paths, and each route serves a record with that path |
| AxumCompat.RouteTableDistinct | vite-embed-axum/src/axum_compat.rs:49-58 | when paths are distinct, every record is served at its own path |
| AxumCompat.ViteRouter | vite-embed-axum/src/axum_compat.rs:42-58 | with `dev` on, the development router over the first record, and a panic on an empty table; with only `prod` on, the production routes; with neither, no router |
| AxumCompat.Route | vite-embed-axum/src/axum_compat.rs:42-58 | the development router serves `/` and proxies every other path; the production router serves exactly the paths in its table and never proxies |
| AxumCompat.Serve | vite-embed-axum/src/axum_compat.rs:10-58 | a static route answers with the record's MIME type, gzip encoding exactly for compressed data, and the stored bytes; a proxy route answers with the proxy's reply; any other path finds no route |
| Pipeline.TablePathsDistinct | vite-embed-macro/src/lib.rs:172-184 | when the listed names are distinct and non-empty, the table's paths are pairwise distinct |
| Pipeline.ProdServesEveryFile | vite-embed-axum/src/axum_compat.rs:49-58 | in production every listed file is served at its path with its MIME type and stored bytes, gzipped exactly when it is neither image nor video |
| Pipeline.ProdMissHasNoRoute | vite-embed-axum/src/axum_compat.rs:49-58 | in production a path that is neither `/` nor `/` plus a listed name has no route |
| Pipeline.DevServesShell | vite-embed-axum/src/axum_compat.rs:42-47 | in development `/` serves the rewritten template, and every other path is fetched from the dev server at that exact path |
| Pipeline.DevShellBytes | vite-embed-macro/src/lib.rs:37-47 | the bytes of a one-marker template are those of the text before it, of the tags, and of the text after it |
| Pipeline.ExampleFileList | vite-embed-macro/src/lib.rs:111-142 | for an entry with one stylesheet and one dynamic import, the build lists the template, the favicon, the entry script, the stylesheet and the imported script, in that order |

## Left out

- I/O is not modelled. File reads, the value of `CARGO_MANIFEST_DIR`, JSON parsing, gzip compression, MIME guessing and the blocking HTTP GET are parameters. Only their results are modelled, not how they are computed.
- Joining the manifest's parent directory with an asset name is folded into the read parameter.
- `manifest_path.parent().unwrap()` cannot fail once the manifest has been read, so that panic is not modelled.
- The `quote!` code generation and the `TokenStream` the macros emit are not modelled. The model returns the records that code denotes.
- The literal's source text is taken as it is. Raw strings, byte strings, prefixes and escapes are not interpreted; only the quote check is.
- `compress` cannot fail in the model. The `Couldn't GZIP data` panic is not modelled, and no decompression round trip is stated.
- JSON numbers are integers only. Floating point is out of scope.
- Json.Value: an object may list a key twice, which serde_json's map never holds (a later duplicate replaces the earlier). `Json.Lookup` takes the first entry, so on such a value the model can differ from serde_json. The parsing parameter is not constrained to exclude it.
- Only direct `dynamicImports` are embedded: no `imports`, no CSS of imported chunks, no deduplication. The model records this behaviour of the source; it is not a claim about the source.
- AxumCompat.RouteTable: axum panics when two records share a path; the model instead keeps the later record, so the routing lemmas require distinct paths.
- AxumCompat.Route: the model treats every path literally. axum reads a path segment that starts with `:` or `*` as a capture or a wildcard, which can send other request paths to that record. `Route`, `Pipeline.ProdServesEveryFile` and `Pipeline.ProdMissHasNoRoute` hold only for file names without such segments.
- AxumCompat.RouteStaticFrontend: `HeaderValue::from_static` panics on a MIME type that is not a valid header value. This is not modelled.
- Only GET requests are modelled. axum's answer to other methods is not modelled, nor is the not-found response of the production router.
- AxumCompat.Serve: the dev proxy forwards only `uri.path()`; the query string is dropped. The model receives just the path.
- Async execution, `spawn_blocking` and the `expect` on a failed task join are not modelled.
