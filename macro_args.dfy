/** Argument handling shared by the two procedural macros of
    `vite-embed-macro`: the separator check, string-literal unquoting and the
    two token-shape matchers. A panic of the macro is an `Err`. */
module MacroArgs {
  import opened Wrappers
  import opened Text

  /** A token tree as the macro receives it. `Literal` holds the literal's
      source text (quotes, prefixes and escapes included). */
  datatype TokenTree =
    | Literal(text: string)
    | Punct(ch: char)
    | Ident(name: string)
    | Group(stream: seq<TokenTree>)

  /** Every way the two macros can abort. */
  datatype MacroError =
    | BadSeparator(left: nat, right: nat)
    | InvalidStringArgument(lit: string)
    | DevArgumentFormat
    | ProdArgumentFormat
    | ManifestDirUnset
    | UnreadableText(path: string)
    | InvalidJson(path: string)
    | ManifestNotObject
    | NoEntryPoint
    | EntryFileNotString
    | CssItemNotString
    | AssetItemNotString
    | ImportKeyNotString
    | ImportFileNotString(key: string)
    | AssetUnreadable(name: string)

  /** The placeholder substituted in path arguments; its value comes from the
      `CARGO_MANIFEST_DIR` environment variable, `None` when that is unset or
      not Unicode (`std::env::var(…).unwrap()` then panics). */
  const CargoManifestDirVar := "$CARGO_MANIFEST_DIR"

  /** `verify_sep`: the punctuation between arguments `between` must be a
      comma; anything else aborts naming the two argument positions. */
  function VerifySep(sep: char, between: (nat, nat)): (r: Outcome<MacroError>)
    ensures r.Pass? <==> sep == ','
    ensures r.Fail? ==> r.error == BadSeparator(between.0, between.1)
  {
    if sep != ',' then Fail(BadSeparator(between.0, between.1)) else Pass
  }

  /** The literal text starts and ends with a double quote (a lone `"` does both). */
  predicate IsStringLit(lit: string)
  {
    |lit| > 0 && lit[0] == '"' && lit[|lit| - 1] == '"'
  }

  /** Wrap `s` in double quotes: how a plain string literal is written. */
  function Quote(s: string): (lit: string)
    ensures IsStringLit(lit) && |lit| == |s| + 2
    ensures Unquote(lit) == s
  {
    "\"" + s + "\""
  }

  /** The text between the quotes: first character dropped, then the last one
      if any is left. Undoes `Quote` on every literal of two or more characters. */
  function Unquote(lit: string): (s: string)
    requires IsStringLit(lit)
    ensures |lit| >= 2 ==> lit == "\"" + s + "\"" && |s| == |lit| - 2
    ensures |lit| < 2 ==> s == ""
  {
    if |lit| == 1 then "" else lit[1..|lit| - 1]
  }

  /** `unwrap_string_lit`: check the quotes, then `remove(0)` and `pop()` on a
      mutable copy of the literal's text. */
  method UnwrapStringLit(lit: string) returns (r: Result<string, MacroError>)
    ensures r.Ok? <==> IsStringLit(lit)
    ensures r.Ok? ==> r.value == Unquote(lit)
    ensures r.Err? ==> r.error == InvalidStringArgument(lit)
  {
    var litString := lit;
    if !(|litString| > 0 && litString[0] == '"') || !(|litString| > 0 && litString[|litString| - 1] == '"') {
      return Err(InvalidStringArgument(lit));
    }
    litString := litString[1..];
    if |litString| > 0 {
      litString := litString[..|litString| - 1];
    }
    return Ok(litString);
  }

  /** The development macro's arguments: the HTML template path (with the crate
      directory substituted) and the Vite entry point. */
  datatype MacroDataDev = MacroDataDev(htmlPath: string, entryPoint: string)

  /** The token shape `"…", "…"` of the development macro. */
  predicate IsDevShape(tokens: seq<TokenTree>)
  {
    |tokens| == 3 && tokens[0].Literal? && tokens[1].Punct? && tokens[2].Literal?
  }

  /** The token shape `"…"` of the production macro. */
  predicate IsProdShape(tokens: seq<TokenTree>)
  {
    |tokens| == 1 && tokens[0].Literal?
  }

  /** What `parse_tokens_html` yields for `tokens`, in the order its checks
      run: shape, separator, HTML path literal, the environment variable (read
      while building the HTML path), entry point literal. */
  function DevArguments(tokens: seq<TokenTree>, manifestDir: Option<string>): (r: Result<MacroDataDev, MacroError>)
    ensures r.Ok? <==> IsDevShape(tokens) && tokens[1].ch == ','
                       && IsStringLit(tokens[0].text) && manifestDir.Some? && IsStringLit(tokens[2].text)
    ensures r.Ok? ==> r.value.entryPoint == Unquote(tokens[2].text)
                      && r.value.htmlPath == ReplaceAll(Unquote(tokens[0].text), CargoManifestDirVar, manifestDir.value)
    ensures !IsDevShape(tokens) ==> r == Err(DevArgumentFormat)
    ensures IsDevShape(tokens) && tokens[1].ch != ',' ==> r == Err(BadSeparator(0, 1))
    ensures IsDevShape(tokens) && tokens[1].ch == ',' && !IsStringLit(tokens[0].text) ==>
              r == Err(InvalidStringArgument(tokens[0].text))
    ensures IsDevShape(tokens) && tokens[1].ch == ',' && IsStringLit(tokens[0].text) && manifestDir.None? ==>
              r == Err(ManifestDirUnset)
    ensures IsDevShape(tokens) && tokens[1].ch == ',' && IsStringLit(tokens[0].text) && manifestDir.Some?
            && !IsStringLit(tokens[2].text) ==>
              r == Err(InvalidStringArgument(tokens[2].text))
  {
    if !IsDevShape(tokens) then Err(DevArgumentFormat)
    else match VerifySep(tokens[1].ch, (0, 1))
      case Fail(e) => Err(e)
      case Pass =>
        if !IsStringLit(tokens[0].text) then Err(InvalidStringArgument(tokens[0].text))
        else if manifestDir.None? then Err(ManifestDirUnset)
        else if !IsStringLit(tokens[2].text) then Err(InvalidStringArgument(tokens[2].text))
        else Ok(MacroDataDev(ReplaceAll(Unquote(tokens[0].text), CargoManifestDirVar, manifestDir.value),
                             Unquote(tokens[2].text)))
  }

  /** `parse_tokens_html`. `manifestDir` is the value of the crate-directory
      environment variable, if it has one. */
  method ParseTokensHtml(tokens: seq<TokenTree>, manifestDir: Option<string>) returns (r: Result<MacroDataDev, MacroError>)
    ensures r == DevArguments(tokens, manifestDir)
  {
    if !IsDevShape(tokens) {
      return Err(DevArgumentFormat);
    }
    var sep := VerifySep(tokens[1].ch, (0, 1));
    if sep.Fail? {
      return Err(sep.error);
    }
    var html := UnwrapStringLit(tokens[0].text);
    if html.Err? {
      return Err(html.error);
    }
    if manifestDir.None? {
      return Err(ManifestDirUnset);
    }
    var htmlPath := ReplaceAll(html.value, CargoManifestDirVar, manifestDir.value);
    var entryPoint := UnwrapStringLit(tokens[2].text);
    if entryPoint.Err? {
      return Err(entryPoint.error);
    }
    return Ok(MacroDataDev(htmlPath, entryPoint.value));
  }

  /** What `parse_tokens_prod` yields: the manifest path, with the crate
      directory substituted. */
  function ProdArgument(tokens: seq<TokenTree>, manifestDir: Option<string>): (r: Result<string, MacroError>)
    ensures r.Ok? <==> IsProdShape(tokens) && IsStringLit(tokens[0].text) && manifestDir.Some?
    ensures r.Ok? ==> r.value == ReplaceAll(Unquote(tokens[0].text), CargoManifestDirVar, manifestDir.value)
    ensures !IsProdShape(tokens) ==> r == Err(ProdArgumentFormat)
    ensures IsProdShape(tokens) && !IsStringLit(tokens[0].text) ==> r == Err(InvalidStringArgument(tokens[0].text))
    ensures IsProdShape(tokens) && IsStringLit(tokens[0].text) && manifestDir.None? ==> r == Err(ManifestDirUnset)
  {
    if !IsProdShape(tokens) then Err(ProdArgumentFormat)
    else if !IsStringLit(tokens[0].text) then Err(InvalidStringArgument(tokens[0].text))
    else if manifestDir.None? then Err(ManifestDirUnset)
    else Ok(ReplaceAll(Unquote(tokens[0].text), CargoManifestDirVar, manifestDir.value))
  }

  /** `parse_tokens_prod`. */
  method ParseTokensProd(tokens: seq<TokenTree>, manifestDir: Option<string>) returns (r: Result<string, MacroError>)
    ensures r == ProdArgument(tokens, manifestDir)
  {
    if !IsProdShape(tokens) {
      return Err(ProdArgumentFormat);
    }
    var manifest := UnwrapStringLit(tokens[0].text);
    if manifest.Err? {
      return Err(manifest.error);
    }
    if manifestDir.None? {
      return Err(ManifestDirUnset);
    }
    return Ok(ReplaceAll(manifest.value, CargoManifestDirVar, manifestDir.value));
  }
}
