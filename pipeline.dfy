/** What the macros' output and the axum adapter guarantee together: which
    request reaches which embedded file, and in what form. */
module Pipeline {
  import opened Wrappers
  import opened Text
  import opened Embed
  import opened Json
  import opened MacroArgs
  import opened DevShell
  import opened ProdBundle
  import opened AxumCompat

  /** The HTTP paths of a built table are pairwise distinct when the listed
      file names are distinct and none after the template is empty. */
  lemma {:induction false} TablePathsDistinct(manifest: Value, readAsset: string -> Option<seq<byte>>,
                                              compress: seq<byte> -> seq<byte>, guess: string -> Option<Mime>,
                                              names: seq<string>)
    requires manifest.Object? && EntryIndex(manifest.fields).Some?
    requires FileList(manifest, manifest.fields[EntryIndex(manifest.fields).value].1) == Ok(names)
    requires AssetTable(manifest, readAsset, compress, guess).Ok?
    requires forall j, k :: 0 <= j < k < |names| ==> names[j] != names[k]
    requires forall k :: 1 <= k < |names| ==> names[k] != ""
    ensures var t := AssetTable(manifest, readAsset, compress, guess).value;
            forall j, k :: 0 <= j < k < |t| ==> t[j].path != t[k].path
  {
    AssetTableRecords(manifest, readAsset, compress, guess, names);
    var t := AssetTable(manifest, readAsset, compress, guess).value;
    forall j, k | 0 <= j < k < |t| ensures t[j].path != t[k].path {
      if j == 0 {
        assert |t[k].path| == 1 + |names[k]| > 1;
      } else {
        assert t[j].path[1..] == names[j] && t[k].path[1..] == names[k];
      }
    }
  }

  /** In production, the template is served at `/` and every other listed file
      at `/` plus its name, each with its MIME type, its stored bytes, and a
      gzip encoding exactly when it is neither an image nor a video; when file
      names are distinct and non-empty. */
  lemma ProdServesEveryFile(manifest: Value, readAsset: string -> Option<seq<byte>>,
                            compress: seq<byte> -> seq<byte>, guess: string -> Option<Mime>,
                            names: seq<string>, i: nat)
    requires manifest.Object? && EntryIndex(manifest.fields).Some?
    requires FileList(manifest, manifest.fields[EntryIndex(manifest.fields).value].1) == Ok(names)
    requires AssetTable(manifest, readAsset, compress, guess).Ok?
    requires forall j, k :: 0 <= j < k < |names| ==> names[j] != names[k]
    requires forall k :: 1 <= k < |names| ==> names[k] != ""
    requires i < |names|
    ensures var t := AssetTable(manifest, readAsset, compress, guess).value;
            var router := ViteRouter(Features(false, true), t);
            var mime, raw := MimeOf(guess, names[i]), readAsset(names[i]).value;
            && router.Ok?
            && Route(router.value, if i == 0 then "/" else "/" + names[i]) == Static(t[i])
            && t[i].mimeType == Essence(mime)
            && (t[i].data.CompressedData? <==> !IsMedia(mime))
            && t[i].data.bytes == (if IsMedia(mime) then raw else compress(raw))
  {
    AssetTableRecords(manifest, readAsset, compress, guess, names);
    TablePathsDistinct(manifest, readAsset, compress, guess, names);
    var t := AssetTable(manifest, readAsset, compress, guess).value;
    RouteTableDistinct(t, i);
  }

  /** In production, a path that is neither `/` nor `/` plus a listed name has
      no route. */
  lemma ProdMissHasNoRoute(manifest: Value, readAsset: string -> Option<seq<byte>>,
                           compress: seq<byte> -> seq<byte>, guess: string -> Option<Mime>,
                           names: seq<string>, path: string)
    requires manifest.Object? && EntryIndex(manifest.fields).Some?
    requires FileList(manifest, manifest.fields[EntryIndex(manifest.fields).value].1) == Ok(names)
    requires AssetTable(manifest, readAsset, compress, guess).Ok?
    requires path != "/" && forall k :: 0 <= k < |names| ==> path != "/" + names[k]
    ensures var t := AssetTable(manifest, readAsset, compress, guess).value;
            Route(ViteRouter(Features(false, true), t).value, path) == NoRoute
  {
    AssetTableRecords(manifest, readAsset, compress, guess, names);
  }

  /** In development (whatever the `prod` feature), `/` is the rewritten
      template, uncompressed, as `text/html`; every other path goes to the dev
      server at the origin followed by that exact path. */
  lemma DevServesShell(html: string, entryPoint: string, prod: bool, path: string,
                       get: string -> Result<string, RequestError>)
    ensures var t := DevTable(html, entryPoint);
            var router := ViteRouter(Features(true, prod), t);
            && router.Ok?
            && Route(router.value, "/") == Static(t[0])
            && (path != "/" ==> Route(router.value, path) == Proxy(path)
                                && ViteProxy(get, path) == MapProxyResult(get(DevOrigin + path)))
  {
  }

  /** The template of the usual shape, served in development: the marker is
      replaced by the two tags, and the bytes are those of that text. */
  lemma DevShellBytes(before: string, after: string, entryPoint: string)
    requires !Occurs(before, ScriptMarker) && !Occurs(after, ScriptMarker)
    ensures Utf8(DevHtml(before + ScriptMarker + after, entryPoint))
            == Utf8(before) + Utf8(ScriptTags(entryPoint)) + Utf8(after)
  {
    DevHtmlOneMarker(before, after, entryPoint);
    Utf8Append(before + ScriptTags(entryPoint), after);
    Utf8Append(before, ScriptTags(entryPoint));
  }

  /** A manifest with an entry `src/main.tsx` that has one stylesheet and one
      dynamic import `src/lazy.tsx`. */
  function ExampleManifest(): Value
  {
    Object([
      ("src/lazy.tsx", Object([("file", String("assets/lazy-def456.js")), ("src", String("src/lazy.tsx"))])),
      ("src/main.tsx", Object([
        ("css", Array([String("assets/main-abc.css")])),
        ("dynamicImports", Array([String("src/lazy.tsx")])),
        ("file", String("assets/main-abc123.js")),
        ("isEntry", Bool(true))]))
    ])
  }

  /** On that manifest the build embeds the template, the favicon, the entry
      script, its stylesheet and the lazily imported script, in that order. */
  lemma ExampleFileList()
    ensures EntryIndex(ExampleManifest().fields) == Some(1)
    ensures FileList(ExampleManifest(), ExampleManifest().fields[1].1)
            == Ok(["index.html", "favicon.ico", "assets/main-abc123.js", "assets/main-abc.css", "assets/lazy-def456.js"])
  {
    var m := ExampleManifest();
    var entry := m.fields[1].1;
    assert Index(m.fields[0].1, "isEntry") == Null;
    assert IsEntryChunk(entry);
    assert CssItems(entry) == [String("assets/main-abc.css")];
    assert AssetItems(entry) == [];
    assert ImportKeys(entry) == [String("src/lazy.tsx")];
    assert EntryFile(entry) == Some("assets/main-abc123.js");
    assert ChunkFile(m, String("src/lazy.tsx")) == Some("assets/lazy-def456.js");
    var css, keys := CssItems(entry), ImportKeys(entry);
    var cssFiles, importFiles := Texts(css), ImportFiles(m, keys);
    assert cssFiles.Some? && |cssFiles.value| == 1 && css[0] == String(cssFiles.value[0]);
    assert cssFiles.value == ["assets/main-abc.css"];
    assert Resolves(m, keys[0]);
    assert importFiles.Ok? && |importFiles.value| == 1 && ChunkFile(m, keys[0]) == Some(importFiles.value[0]);
    assert importFiles.value == ["assets/lazy-def456.js"];
    assert Texts(AssetItems(entry)) == Some([]);
    assert FixedFiles + ["assets/main-abc123.js"] + ["assets/main-abc.css"] + [] + ["assets/lazy-def456.js"]
           == ["index.html", "favicon.ico", "assets/main-abc123.js", "assets/main-abc.css", "assets/lazy-def456.js"];
  }
}
