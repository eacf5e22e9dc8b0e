/** The development macro `generate_vite_dev`: read the HTML template, put the
    two Vite script tags where the injection marker stands, and emit a single
    uncompressed record served at `/`. */
module DevShell {
  import opened Wrappers
  import opened Text
  import opened Embed
  import opened MacroArgs

  /** The placeholder in the HTML template. */
  const ScriptMarker := "<!--vite-embed script injection-->"

  /** The module script of Vite's client runtime, loaded from the dev server. */
  const ClientScriptTag := "<script type=\"module\" src=\"" + DevOrigin + "/@vite/client\"></script>"

  /** The module script of the entry point, loaded from the dev server. */
  function EntryScriptTag(entryPoint: string): string
  {
    "<script type=\"module\" src=\"" + DevOrigin + "/" + entryPoint + "\"></script>"
  }

  /** What replaces each marker: both tags, one per line. */
  function ScriptTags(entryPoint: string): string
  {
    ClientScriptTag + "\n" + EntryScriptTag(entryPoint)
  }

  /** `html.replace(marker, tags)`: the template with every marker replaced.
      It never shrinks, and a template without the marker is unchanged. */
  function DevHtml(html: string, entryPoint: string): (r: string)
    ensures |r| >= |html|
    ensures !Occurs(html, ScriptMarker) ==> r == html
  {
    ReplaceAbsent(html, ScriptMarker, ScriptTags(entryPoint));
    ReplaceAll(html, ScriptMarker, ScriptTags(entryPoint))
  }

  /** The entry script refers to the entry point verbatim, right after the dev
      server's origin and a slash. */
  lemma EntryPointVerbatim(entryPoint: string)
    ensures var at := |ClientScriptTag| + 1 + |"<script type=\"module\" src=\""| + |DevOrigin| + 1;
            MatchAt(ScriptTags(entryPoint), entryPoint, at)
            && MatchAt(ScriptTags(entryPoint), DevOrigin + "/", at - |DevOrigin| - 1)
  {
    var head := ClientScriptTag + "\n" + "<script type=\"module\" src=\"";
    var tags := ScriptTags(entryPoint);
    assert tags == head + (DevOrigin + "/") + entryPoint + "\"></script>";
    assert tags[|head|..|head| + |DevOrigin| + 1] == DevOrigin + "/";
    assert tags[|head| + |DevOrigin| + 1..|head| + |DevOrigin| + 1 + |entryPoint|] == entryPoint;
  }

  /** The marker's opening `<` appears nowhere else in it, so two markers never
      overlap. */
  lemma MarkerHeadUnique()
    ensures HeadUnique(ScriptMarker)
  {
    assert ScriptMarker == "<" + "!--vite-embed script injection-->";
    assert '<' !in "!--vite-embed script injection-->";
    forall k | 0 < k < |ScriptMarker| ensures ScriptMarker[k] != ScriptMarker[0] {
      assert ScriptMarker[k] == "!--vite-embed script injection-->"[k - 1];
    }
  }

  /** Every marker is replaced: a template made of marker-free pieces separated
      by markers becomes the same pieces separated by the two script tags. */
  lemma DevHtmlEveryMarker(parts: seq<string>, entryPoint: string)
    requires |parts| > 0
    requires forall i :: 0 <= i < |parts| ==> !Occurs(parts[i], ScriptMarker)
    ensures DevHtml(Join(parts, ScriptMarker), entryPoint) == Join(parts, ScriptTags(entryPoint))
  {
    MarkerHeadUnique();
    ReplaceJoin(parts, ScriptMarker, ScriptTags(entryPoint));
  }

  /** The usual template: one marker, text before and after it. */
  lemma DevHtmlOneMarker(before: string, after: string, entryPoint: string)
    requires !Occurs(before, ScriptMarker) && !Occurs(after, ScriptMarker)
    ensures DevHtml(before + ScriptMarker + after, entryPoint) == before + ScriptTags(entryPoint) + after
  {
    var parts := [before, after];
    assert Join(parts[1..], ScriptMarker) == after;
    assert Join(parts, ScriptMarker) == before + ScriptMarker + after;
    assert Join(parts[1..], ScriptTags(entryPoint)) == after;
    DevHtmlEveryMarker(parts, entryPoint);
  }

  /** The table the development macro emits for a template: one record,
      served at `/`, uncompressed, `text/html`, holding the UTF-8 bytes of the
      rewritten template. */
  function DevTable(html: string, entryPoint: string): (t: ViteEmbed)
    ensures |t| == 1 && t[0].path == "/" && t[0].mimeType == "text/html"
    ensures t[0].data.UncompressedData? && t[0].data.bytes == Utf8(DevHtml(html, entryPoint))
    ensures |t[0].data.bytes| >= |html|
  {
    [ViteData("/", UncompressedData(Utf8(DevHtml(html, entryPoint))), "text/html")]
  }

  /** `generate_vite_dev`. `manifestDir` is the crate-directory environment
      variable, if set; `readToString` reads a file as UTF-8 text (`None` when
      it cannot). */
  method GenerateViteDev(tokens: seq<TokenTree>, manifestDir: Option<string>, readToString: string -> Option<string>)
    returns (r: Result<ViteEmbed, MacroError>)
    ensures DevArguments(tokens, manifestDir).Err? ==> r == Err(DevArguments(tokens, manifestDir).error)
    ensures DevArguments(tokens, manifestDir).Ok? ==>
              var args := DevArguments(tokens, manifestDir).value;
              match readToString(args.htmlPath)
              case None => r == Err(UnreadableText(args.htmlPath))
              case Some(html) => r == Ok(DevTable(html, args.entryPoint))
  {
    var macroData := ParseTokensHtml(tokens, manifestDir);
    if macroData.Err? {
      return Err(macroData.error);
    }
    var read := readToString(macroData.value.htmlPath);
    if read.None? {
      return Err(UnreadableText(macroData.value.htmlPath));
    }
    var html := ReplaceAll(read.value, ScriptMarker, ScriptTags(macroData.value.entryPoint));
    var bytes := Utf8(html);
    return Ok([ViteData("/", UncompressedData(bytes), "text/html")]);
  }
}
