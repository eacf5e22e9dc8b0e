/** The production macro `generate_vite_prod`: from a parsed Vite manifest,
    list the files to embed, read them, gzip all but images and videos, and emit
    one record per file, the HTML template first and served at `/`. */
module ProdBundle {
  import opened Wrappers
  import opened Text
  import opened Embed
  import opened Json
  import opened MacroArgs

  /** A MIME type as its top-level type and everything after the `/` (so the
      subtype of `image/svg+xml` here is `svg+xml`, suffix included). */
  datatype Mime = Mime(kind: string, subtype: string)

  /** `Mime::essence_str`: `type/subtype`, without parameters. */
  function Essence(m: Mime): string
  {
    m.kind + "/" + m.subtype
  }

  /** `first_or_text_plain`: the guessed type, or `text/plain` when there is none. */
  function FirstOrTextPlain(guess: Option<Mime>): (m: Mime)
    ensures guess.None? ==> Essence(m) == "text/plain"
    ensures guess.Some? ==> m == guess.value
  {
    if guess.Some? then guess.value else Mime("text", "plain")
  }

  /** The MIME type of a file name; `guess` stands for `mime_guess::from_path(…).first()`. */
  function MimeOf(guess: string -> Option<Mime>, name: string): Mime
  {
    FirstOrTextPlain(guess(name))
  }

  /** Images and videos are stored as they are; every other type is gzipped. */
  predicate IsMedia(m: Mime)
  {
    m.kind == "image" || m.kind == "video"
  }

  /** `f["isEntry"].is_boolean()`: the manifest marks the chunk as an entry. */
  predicate IsEntryChunk(chunk: Value)
  {
    Index(chunk, "isEntry").Bool?
  }

  /** The position of the entry chunk: the first field, in iteration order,
      whose value has a boolean `isEntry`. */
  function EntryIndex(fields: seq<(string, Value)>): (r: Option<nat>)
    ensures r.Some? ==> r.value < |fields| && IsEntryChunk(fields[r.value].1)
    ensures r.Some? ==> forall j :: 0 <= j < r.value ==> !IsEntryChunk(fields[j].1)
    ensures r.None? <==> forall j :: 0 <= j < |fields| ==> !IsEntryChunk(fields[j].1)
  {
    if fields == [] then None
    else if IsEntryChunk(fields[0].1) then Some(0)
    else match EntryIndex(fields[1..])
      case None => None
      case Some(k) => Some(k + 1)
  }

  /** The texts of `items` when every item is a JSON string, otherwise `None`
      (the first non-string item makes `as_str().unwrap()` panic). */
  function Texts(items: seq<Value>): (r: Option<seq<string>>)
    ensures r.Some? <==> forall i :: 0 <= i < |items| ==> items[i].String?
    ensures r.Some? ==> |r.value| == |items|
    ensures r.Some? ==> forall i :: 0 <= i < |items| ==> items[i] == String(r.value[i])
  {
    if items == [] then Some([])
    else match (items[0], Texts(items[1..]))
      case (String(s), Some(rest)) => Some([s] + rest)
      case _ => None
  }

  /** `manifest[key]["file"].as_str()` for a key that is a JSON string. */
  function ChunkFile(manifest: Value, key: Value): Option<string>
  {
    if key.String? then AsStr(Index(Index(manifest, key.s), "file")) else None
  }

  /** A dynamic import resolves when its key is a string naming a manifest
      chunk that has a string `file`. */
  predicate Resolves(manifest: Value, key: Value)
  {
    ChunkFile(manifest, key).Some?
  }

  /** Why an unresolvable dynamic import aborts the build. */
  function ImportError(key: Value): MacroError
  {
    if key.String? then ImportFileNotString(key.s) else ImportKeyNotString
  }

  /** The output files of the directly imported chunks, in the order the keys
      are listed; the first key that does not resolve aborts. */
  function ImportFiles(manifest: Value, keys: seq<Value>): (r: Result<seq<string>, MacroError>)
    ensures r.Ok? <==> forall i :: 0 <= i < |keys| ==> Resolves(manifest, keys[i])
    ensures r.Ok? ==> |r.value| == |keys|
    ensures r.Ok? ==> forall i :: 0 <= i < |keys| ==> ChunkFile(manifest, keys[i]) == Some(r.value[i])
    ensures r.Err? ==> r.error.ImportKeyNotString? || r.error.ImportFileNotString?
  {
    if keys == [] then Ok([])
    else match ChunkFile(manifest, keys[0])
      case None => Err(ImportError(keys[0]))
      case Some(file) =>
        match ImportFiles(manifest, keys[1..])
        case Err(e) => Err(e)
        case Ok(files) => Ok([file] + files)
  }

  /** The files every build embeds that the manifest does not list. */
  const FixedFiles := ["index.html", "favicon.ico"]

  /** The fields of the entry chunk the build reads. */
  function EntryFile(entry: Value): Option<string> { AsStr(Index(entry, "file")) }
  function CssItems(entry: Value): seq<Value> { ArrayItems(Index(entry, "css")) }
  function AssetItems(entry: Value): seq<Value> { ArrayItems(Index(entry, "assets")) }
  function ImportKeys(entry: Value): seq<Value> { ArrayItems(Index(entry, "dynamicImports")) }

  /** The file list of the build: the template, the favicon, the entry's
      script, its stylesheets, its static assets and the scripts of its direct
      dynamic imports, in that order, with no deduplication. */
  function FileList(manifest: Value, entry: Value): (r: Result<seq<string>, MacroError>)
    ensures r.Ok? <==> && EntryFile(entry).Some?
                       && (forall i :: 0 <= i < |CssItems(entry)| ==> CssItems(entry)[i].String?)
                       && (forall i :: 0 <= i < |AssetItems(entry)| ==> AssetItems(entry)[i].String?)
                       && (forall i :: 0 <= i < |ImportKeys(entry)| ==> Resolves(manifest, ImportKeys(entry)[i]))
    ensures EntryFile(entry).None? ==> r == Err(EntryFileNotString)
    ensures r.Ok? ==>
              var css, assets, keys := CssItems(entry), AssetItems(entry), ImportKeys(entry);
              && |r.value| == 3 + |css| + |assets| + |keys|
              && r.value[..2] == FixedFiles
              && Some(r.value[2]) == EntryFile(entry)
              && (forall i :: 0 <= i < |css| ==> css[i] == String(r.value[3 + i]))
              && (forall i :: 0 <= i < |assets| ==> assets[i] == String(r.value[3 + |css| + i]))
              && (forall i :: 0 <= i < |keys| ==> ChunkFile(manifest, keys[i]) == Some(r.value[3 + |css| + |assets| + i]))
  {
    match EntryFile(entry)
    case None => Err(EntryFileNotString)
    case Some(file) =>
      match Texts(CssItems(entry))
      case None => Err(CssItemNotString)
      case Some(css) =>
        match Texts(AssetItems(entry))
        case None => Err(AssetItemNotString)
        case Some(assets) =>
          match ImportFiles(manifest, ImportKeys(entry))
          case Err(e) => Err(e)
          case Ok(imports) => Ok(FixedFiles + [file] + css + assets + imports)
  }

  /** The position of the first file `readAsset` cannot read, or `|names|`
      when every file can be read. */
  function FirstUnreadable(names: seq<string>, readAsset: string -> Option<seq<byte>>): (k: nat)
    ensures k <= |names|
    ensures forall j :: 0 <= j < k ==> readAsset(names[j]).Some?
    ensures k < |names| ==> readAsset(names[k]).None?
  {
    if names == [] then 0
    else if readAsset(names[0]).None? then 0
    else 1 + FirstUnreadable(names[1..], readAsset)
  }

  /** How a file's bytes are stored: as read for images and videos, gzipped
      otherwise. */
  function StoredData(mime: Mime, raw: seq<byte>, compress: seq<byte> -> seq<byte>): ViteFileData
  {
    if IsMedia(mime) then UncompressedData(raw) else CompressedData(compress(raw))
  }

  /** The HTTP path of the `index`-th file: `/` for the template at index 0,
      `/name` for the others. */
  function HttpPath(index: nat, name: string): string
  {
    if index == 0 then "/" else "/" + name
  }

  /** The record emitted for the `index`-th file. */
  function AssetRecord(index: nat, name: string, raw: seq<byte>,
                       compress: seq<byte> -> seq<byte>, guess: string -> Option<Mime>): ViteData
  {
    var mime := MimeOf(guess, name);
    ViteData(HttpPath(index, name), StoredData(mime, raw, compress), Essence(mime))
  }

  /** What `generate_vite_prod` emits for a parsed manifest. `readAsset` reads
      a file named relative to the manifest's directory; `compress` is gzip at
      the best level; `guess` is the MIME guess by file name. */
  function AssetTable(manifest: Value, readAsset: string -> Option<seq<byte>>,
                      compress: seq<byte> -> seq<byte>, guess: string -> Option<Mime>): (r: Result<ViteEmbed, MacroError>)
    ensures !manifest.Object? ==> r == Err(ManifestNotObject)
    ensures manifest.Object? && EntryIndex(manifest.fields).None? ==> r == Err(NoEntryPoint)
    ensures manifest.Object? && EntryIndex(manifest.fields).Some? ==>
              var entry := manifest.fields[EntryIndex(manifest.fields).value].1;
              FileList(manifest, entry).Err? ==> r == Err(FileList(manifest, entry).error)
    ensures r.Ok? ==> |r.value| >= 3 && r.value[0].path == "/"
    ensures r.Ok? ==> forall i :: 0 <= i < |r.value| ==> |r.value[i].path| > 0 && r.value[i].path[0] == '/'
  {
    if !manifest.Object? then Err(ManifestNotObject)
    else match EntryIndex(manifest.fields)
      case None => Err(NoEntryPoint)
      case Some(k) =>
        match FileList(manifest, manifest.fields[k].1)
        case Err(e) => Err(e)
        case Ok(names) => RecordsFor(names, readAsset, compress, guess)
  }

  /** The records for a file list whose files are then read: one per file,
      in order, unless some file cannot be read. */
  function RecordsFor(names: seq<string>, readAsset: string -> Option<seq<byte>>,
                      compress: seq<byte> -> seq<byte>, guess: string -> Option<Mime>): (r: Result<ViteEmbed, MacroError>)
    ensures r.Ok? <==> forall i :: 0 <= i < |names| ==> readAsset(names[i]).Some?
    ensures r.Err? ==> exists u :: 0 <= u < |names| && readAsset(names[u]).None?
                         && (forall j :: 0 <= j < u ==> readAsset(names[j]).Some?)
                         && r.error == AssetUnreadable(names[u])
    ensures r.Ok? ==> |r.value| == |names|
    ensures r.Ok? ==> forall i :: 0 <= i < |names| ==>
              var mime, raw := MimeOf(guess, names[i]), readAsset(names[i]).value;
              && r.value[i].path == (if i == 0 then "/" else "/" + names[i])
              && r.value[i].mimeType == Essence(mime)
              && (r.value[i].data.CompressedData? <==> !IsMedia(mime))
              && r.value[i].data.bytes == (if IsMedia(mime) then raw else compress(raw))
  {
    var u := FirstUnreadable(names, readAsset);
    if u < |names| then Err(AssetUnreadable(names[u]))
    else Ok(seq(|names|, i requires 0 <= i < |names| && readAsset(names[i]).Some? =>
                  AssetRecord(i, names[i], readAsset(names[i]).value, compress, guess)))
  }

  /** Every file the build embeds, and how: when the table is built, it has
      one record per listed file, in order; record `i` holds file `i`'s bytes,
      gzipped exactly when its MIME type is neither image nor video, with that
      MIME type as text; it is served at `/` for the template and at `/` plus
      the file name otherwise. An unreadable listed file aborts the build with
      the first such name. */
  lemma AssetTableRecords(manifest: Value, readAsset: string -> Option<seq<byte>>,
                          compress: seq<byte> -> seq<byte>, guess: string -> Option<Mime>, names: seq<string>)
    requires manifest.Object? && EntryIndex(manifest.fields).Some?
    requires FileList(manifest, manifest.fields[EntryIndex(manifest.fields).value].1) == Ok(names)
    ensures AssetTable(manifest, readAsset, compress, guess).Ok? <==>
              forall i :: 0 <= i < |names| ==> readAsset(names[i]).Some?
    ensures AssetTable(manifest, readAsset, compress, guess).Err? ==>
              exists u :: 0 <= u < |names| && readAsset(names[u]).None?
                && (forall j :: 0 <= j < u ==> readAsset(names[j]).Some?)
                && AssetTable(manifest, readAsset, compress, guess).error == AssetUnreadable(names[u])
    ensures AssetTable(manifest, readAsset, compress, guess).Ok? ==>
              var t := AssetTable(manifest, readAsset, compress, guess).value;
              && |t| == |names|
              && forall i :: 0 <= i < |t| ==>
                   var mime, raw := MimeOf(guess, names[i]), readAsset(names[i]).value;
                   && t[i].path == (if i == 0 then "/" else "/" + names[i])
                   && t[i].mimeType == Essence(mime)
                   && (t[i].data.CompressedData? <==> !IsMedia(mime))
                   && t[i].data.bytes == (if IsMedia(mime) then raw else compress(raw))
  {
    var u := FirstUnreadable(names, readAsset);
    if u < |names| {
      assert readAsset(names[u]).None?;
    }
  }

  /** Append the texts of `items` to `names` (one of the `for i in arr` loops);
      a non-string item aborts with `err`. */
  method PushStrings(names: seq<string>, items: seq<Value>, err: MacroError) returns (r: Result<seq<string>, MacroError>)
    ensures Texts(items).None? ==> r == Err(err)
    ensures Texts(items).Some? ==> r == Ok(names + Texts(items).value)
  {
    var fileNames := names;
    var i := 0;
    while i < |items|
      invariant 0 <= i <= |items|
      invariant |fileNames| == |names| + i && fileNames[..|names|] == names
      invariant forall j :: 0 <= j < i ==> items[j] == String(fileNames[|names| + j])
    {
      var text := AsStr(items[i]);
      if text.None? {
        return Err(err);
      }
      fileNames := fileNames + [text.value];
      i := i + 1;
    }
    assert fileNames == names + Texts(items).value;
    return Ok(fileNames);
  }

  /** Append the output files of the dynamically imported chunks to `names`. */
  method PushImportFiles(names: seq<string>, manifest: Value, keys: seq<Value>) returns (r: Result<seq<string>, MacroError>)
    ensures ImportFiles(manifest, keys).Err? ==> r == Err(ImportFiles(manifest, keys).error)
    ensures ImportFiles(manifest, keys).Ok? ==> r == Ok(names + ImportFiles(manifest, keys).value)
  {
    var fileNames := names;
    var i := 0;
    while i < |keys|
      invariant 0 <= i <= |keys|
      invariant |fileNames| == |names| + i && fileNames[..|names|] == names
      invariant forall j :: 0 <= j < i ==> ChunkFile(manifest, keys[j]) == Some(fileNames[|names| + j])
    {
      var file := ChunkFile(manifest, keys[i]);
      if file.None? {
        FirstImportError(manifest, keys, i);
        return Err(ImportError(keys[i]));
      }
      fileNames := fileNames + [file.value];
      i := i + 1;
    }
    assert fileNames == names + ImportFiles(manifest, keys).value;
    return Ok(fileNames);
  }

  /** The error of `ImportFiles` is that of its first unresolvable key. */
  lemma {:induction false} FirstImportError(manifest: Value, keys: seq<Value>, i: nat)
    requires i < |keys| && !Resolves(manifest, keys[i])
    requires forall j :: 0 <= j < i ==> Resolves(manifest, keys[j])
    ensures ImportFiles(manifest, keys) == Err(ImportError(keys[i]))
  {
    if i > 0 {
      FirstImportError(manifest, keys[1..], i - 1);
    }
  }

  /** Lines 121-142 of `generate_vite_prod`: push the fixed names, the entry's
      `file`, its `css`, its `assets` and its direct dynamic imports' files. */
  method CollectFileNames(manifest: Value, entryPoint: Value) returns (r: Result<seq<string>, MacroError>)
    ensures r == FileList(manifest, entryPoint)
  {
    var fileNames: seq<string> := FixedFiles;
    var file := EntryFile(entryPoint);
    if file.None? {
      return Err(EntryFileNotString);
    }
    fileNames := fileNames + [file.value];
    var withCss := PushStrings(fileNames, CssItems(entryPoint), CssItemNotString);
    if withCss.Err? {
      return Err(withCss.error);
    }
    var withAssets := PushStrings(withCss.value, AssetItems(entryPoint), AssetItemNotString);
    if withAssets.Err? {
      return Err(withAssets.error);
    }
    r := PushImportFiles(withAssets.value, manifest, ImportKeys(entryPoint));
  }

  /** The MIME-guessing loop: one type per file name, `text/plain` when the
      name gives none. */
  method GuessMimeTypes(fileNames: seq<string>, guess: string -> Option<Mime>) returns (mimeTypes: seq<Mime>)
    ensures |mimeTypes| == |fileNames|
    ensures forall j :: 0 <= j < |fileNames| ==> mimeTypes[j] == MimeOf(guess, fileNames[j])
  {
    mimeTypes := [];
    var i := 0;
    while i < |fileNames|
      invariant 0 <= i <= |fileNames| && |mimeTypes| == i
      invariant forall j :: 0 <= j < i ==> mimeTypes[j] == MimeOf(guess, fileNames[j])
    {
      mimeTypes := mimeTypes + [FirstOrTextPlain(guess(fileNames[i]))];
      i := i + 1;
    }
  }

  /** The read-and-compress loop: read each file in order (the first unreadable
      one aborts), keep images and videos as read and gzip the rest, recording
      which were gzipped. */
  method LoadFiles(fileNames: seq<string>, mimeTypes: seq<Mime>,
                   readAsset: string -> Option<seq<byte>>, compress: seq<byte> -> seq<byte>)
    returns (r: Result<(seq<seq<byte>>, seq<bool>), MacroError>)
    requires |mimeTypes| == |fileNames|
    ensures r.Err? <==> FirstUnreadable(fileNames, readAsset) < |fileNames|
    ensures r.Err? ==> r.error == AssetUnreadable(fileNames[FirstUnreadable(fileNames, readAsset)])
    ensures r.Ok? ==> |r.value.0| == |fileNames| && |r.value.1| == |fileNames|
    ensures r.Ok? ==> forall j :: 0 <= j < |fileNames| ==>
              && r.value.1[j] == !IsMedia(mimeTypes[j])
              && r.value.0[j] == (if IsMedia(mimeTypes[j]) then readAsset(fileNames[j]).value
                                  else compress(readAsset(fileNames[j]).value))
  {
    var fileDatas: seq<seq<byte>> := [];
    var compressedDatas: seq<bool> := [];
    var i := 0;
    while i < |fileNames|
      invariant 0 <= i <= |fileNames| && |fileDatas| == i && |compressedDatas| == i
      invariant forall j :: 0 <= j < i ==> readAsset(fileNames[j]).Some?
      invariant forall j :: 0 <= j < i ==>
                  && compressedDatas[j] == !IsMedia(mimeTypes[j])
                  && fileDatas[j] == (if IsMedia(mimeTypes[j]) then readAsset(fileNames[j]).value
                                      else compress(readAsset(fileNames[j]).value))
    {
      var fileData := readAsset(fileNames[i]);
      if fileData.None? {
        assert FirstUnreadable(fileNames, readAsset) == i;
        return Err(AssetUnreadable(fileNames[i]));
      }
      if IsMedia(mimeTypes[i]) {
        fileDatas := fileDatas + [fileData.value];
        compressedDatas := compressedDatas + [false];
      } else {
        fileDatas := fileDatas + [compress(fileData.value)];
        compressedDatas := compressedDatas + [true];
      }
      i := i + 1;
    }
    return Ok((fileDatas, compressedDatas));
  }

  /** The path step: prefix every name with `/`, then overwrite the first
      (the template's) with `/`. */
  method HttpPaths(fileNames: seq<string>) returns (r: seq<string>)
    requires |fileNames| > 0
    ensures |r| == |fileNames| && r[0] == "/"
    ensures forall j :: 1 <= j < |fileNames| ==> r[j] == "/" + fileNames[j]
  {
    var paths := new string[|fileNames|](j requires 0 <= j < |fileNames| => "/" + fileNames[j]);
    paths[0] := "/";
    r := paths[..];
  }

  /** Lines 144-213 of `generate_vite_prod`: guess the types, read and
      compress the files, build the paths and zip everything into records. */
  method BuildRecords(fileNames: seq<string>, readAsset: string -> Option<seq<byte>>,
                      compress: seq<byte> -> seq<byte>, guess: string -> Option<Mime>)
    returns (r: Result<ViteEmbed, MacroError>)
    requires |fileNames| > 0
    ensures r == RecordsFor(fileNames, readAsset, compress, guess)
  {
    var mimeTypes := GuessMimeTypes(fileNames, guess);
    var loaded := LoadFiles(fileNames, mimeTypes, readAsset, compress);
    if loaded.Err? {
      return Err(loaded.error);
    }
    var (fileDatas, compressedDatas) := loaded.value;
    var paths := HttpPaths(fileNames);

    var records: seq<ViteData> := [];
    var i := 0;
    while i < |fileNames|
      invariant 0 <= i <= |fileNames| && |records| == i
      invariant forall j :: 0 <= j < i ==>
                  records[j] == AssetRecord(j, fileNames[j], readAsset(fileNames[j]).value, compress, guess)
    {
      var data := if compressedDatas[i] then CompressedData(fileDatas[i]) else UncompressedData(fileDatas[i]);
      records := records + [ViteData(paths[i], data, Essence(mimeTypes[i]))];
      i := i + 1;
    }
    assert FirstUnreadable(fileNames, readAsset) == |fileNames|;
    assert records == seq(|fileNames|, i requires 0 <= i < |fileNames| && readAsset(fileNames[i]).Some? =>
                            AssetRecord(i, fileNames[i], readAsset(fileNames[i]).value, compress, guess));
    return Ok(records);
  }

  /** The body of `generate_vite_prod` after the manifest is parsed: find the
      entry, list the files, then build the records. */
  method BuildAssetTable(manifest: Value, readAsset: string -> Option<seq<byte>>,
                         compress: seq<byte> -> seq<byte>, guess: string -> Option<Mime>)
    returns (r: Result<ViteEmbed, MacroError>)
    ensures r == AssetTable(manifest, readAsset, compress, guess)
  {
    if !manifest.Object? {
      return Err(ManifestNotObject);
    }
    var found := EntryIndex(manifest.fields);
    if found.None? {
      return Err(NoEntryPoint);
    }
    var entryPoint := manifest.fields[found.value].1;
    var listed := CollectFileNames(manifest, entryPoint);
    if listed.Err? {
      return Err(listed.error);
    }
    r := BuildRecords(listed.value, readAsset, compress, guess);
  }

  /** `generate_vite_prod`: parse the argument, read the manifest as text,
      parse it as JSON (`parseJson`), then build the table. */
  method GenerateViteProd(tokens: seq<TokenTree>, manifestDir: Option<string>,
                          readToString: string -> Option<string>, parseJson: string -> Option<Value>,
                          readAsset: string -> Option<seq<byte>>,
                          compress: seq<byte> -> seq<byte>, guess: string -> Option<Mime>)
    returns (r: Result<ViteEmbed, MacroError>)
    ensures ProdArgument(tokens, manifestDir).Err? ==> r == Err(ProdArgument(tokens, manifestDir).error)
    ensures ProdArgument(tokens, manifestDir).Ok? ==>
              var path := ProdArgument(tokens, manifestDir).value;
              match readToString(path)
              case None => r == Err(UnreadableText(path))
              case Some(text) =>
                match parseJson(text)
                case None => r == Err(InvalidJson(path))
                case Some(manifest) => r == AssetTable(manifest, readAsset, compress, guess)
  {
    var manifestPath := ParseTokensProd(tokens, manifestDir);
    if manifestPath.Err? {
      return Err(manifestPath.error);
    }
    var manifestString := readToString(manifestPath.value);
    if manifestString.None? {
      return Err(UnreadableText(manifestPath.value));
    }
    var manifestJson := parseJson(manifestString.value);
    if manifestJson.None? {
      return Err(InvalidJson(manifestPath.value));
    }
    r := BuildAssetTable(manifestJson.value, readAsset, compress, guess);
  }
}
