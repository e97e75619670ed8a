/** The image datasource (datasource/image/data.go): token fallback when
    configured, the API-side filter and the projection of the chosen image
    onto the datasource's output.

    Decoding, the HTTP client, serialising the filter and formatting times
    are foreign: their outcomes are parameters, and times are formatted by
    an abstract `format` function. */
module ImageDatasource {
  import opened Wrappers
  import opened Api
  import opened ImageFilter
  import LinodeConfig

  const TokenMissing: string :=
    "A Linode API token is required. You can specify it in an "
    + "environment variable \"" + LinodeConfig.TokenEnvVar + "\" or set linode_token "
    + "attribute in the datasource block."

  // ---- Configure ----

  datatype ConfigureResult =
    | DecodeFailed(message: string)
    | Configured(config: Config, error: Option<string>)

  /** Falls back to the environment's token when none is configured, and
      reports an error when neither supplies one. `envToken` is the value of
      the LINODE_TOKEN environment variable. */
  function Configure(decoded: Result<Config, string>, envToken: string): (r: ConfigureResult)
    ensures decoded.Failure? <==> r.DecodeFailed?
    ensures r.Configured? ==> r.config == decoded.value.(token := r.config.token)
    ensures r.Configured? && decoded.value.token != "" ==> r.config.token == decoded.value.token && r.error.None?
    ensures r.Configured? && decoded.value.token == "" ==> r.config.token == envToken
    ensures r.Configured? ==> (r.error.Some? <==> decoded.value.token == "" && envToken == "")
    ensures r.Configured? && r.error.Some? ==> r.error.value == TokenMissing
  {
    match decoded
    case Failure(e) => DecodeFailed(e)
    case Success(c) =>
      if c.token == "" then
        Configured(c.(token := envToken), if envToken == "" then Some(TokenMissing) else None)
      else Configured(c, None)
  }

  // ---- The API filter ----

  datatype Operator = Eq
  datatype FilterField = FilterField(field: string, op: Operator, value: string)

  /** The server-side filter: the exact label when one is configured, and
      always the "available" status, in that order. */
  function ApiFilter(c: Config): (r: seq<FilterField>)
    ensures FilterField("status", Eq, "available") in r
    ensures FilterField("label", Eq, c.labelText) in r <==> c.labelText != ""
    ensures forall f :: f in r ==> f == FilterField("status", Eq, "available") || f == FilterField("label", Eq, c.labelText)
    ensures r[|r| - 1] == FilterField("status", Eq, "available")
  {
    (if c.labelText != "" then [FilterField("label", Eq, c.labelText)] else [])
    + [FilterField("status", Eq, "available")]
  }

  // ---- The output ----

  datatype Output = Output(
    id: string,
    capabilities: seq<string>,
    created: string,
    createdBy: string,
    deprecated: bool,
    description: string,
    eol: string,
    expiry: string,
    isPublic: bool,
    labelText: string,
    size: int,
    imageType: string,
    updated: string,
    vendor: string)

  /** Formats an optional time; a nil time is the empty string. */
  function FormatOptional(t: Option<int>, format: int -> string): (r: string)
    ensures t.None? ==> r == ""
    ensures t.Some? ==> r == format(t.value)
  {
    match t
    case None => ""
    case Some(v) => format(v)
  }

  /** Creation and update times are dereferenced unconditionally. */
  predicate HasTimes(img: Image) {
    img.created.Some? && img.updated.Some?
  }

  /** Projects an image onto the datasource's output: the untimed fields
      are copied, the creation and update times are formatted, and an
      end-of-life or expiry time is formatted only when present. */
  function GetOutput(img: Image, format: int -> string): (r: Output)
    requires HasTimes(img)
    ensures && r.id == img.id && r.capabilities == img.capabilities && r.createdBy == img.createdBy
            && r.deprecated == img.deprecated && r.description == img.description
            && r.isPublic == img.isPublic && r.labelText == img.labelText && r.size == img.size
            && r.imageType == img.imageType && r.vendor == img.vendor
    ensures r.created == format(img.created.value) && r.updated == format(img.updated.value)
    ensures img.eol.None? ==> r.eol == ""
    ensures img.eol.Some? ==> r.eol == format(img.eol.value)
    ensures img.expiry.None? ==> r.expiry == ""
    ensures img.expiry.Some? ==> r.expiry == format(img.expiry.value)
  {
    Output(
      img.id, img.capabilities, format(img.created.value), img.createdBy, img.deprecated,
      img.description, FormatOptional(img.eol, format), FormatOptional(img.expiry, format),
      img.isPublic, img.labelText, img.size, img.imageType, format(img.updated.value), img.vendor)
  }

  /** With a formatter that never yields the empty string (as RFC 3339
      formatting does not), the end-of-life and expiry outputs are empty
      exactly when the image has no such time. */
  lemma GetOutputOptionalTimes(img: Image, format: int -> string)
    requires HasTimes(img)
    requires forall t :: format(t) != ""
    ensures var o := GetOutput(img, format);
      && (o.eol == "" <==> img.eol.None?)
      && (o.expiry == "" <==> img.expiry.None?)
  {
    var o := GetOutput(img, format);
    if img.eol.Some? {
      assert o.eol == format(img.eol.value);
    }
    if img.expiry.Some? {
      assert o.expiry == format(img.expiry.value);
    }
  }

  // ---- Execute ----

  /** The image listing request, if it was made, and the datasource's result. */
  datatype ExecuteResult = ExecuteResult(request: Option<seq<FilterField>>, result: Result<Output, string>)

  /** What `Execute` needs so that no pointer it dereferences is nil and
      every active pattern compiles. Patterns are compiled only once the
      client exists and the listing has succeeded, so nothing is demanded on
      the paths that stop earlier. */
  predicate CanExecute(c: Config, engine: RegexEngine, caError: Option<string>, listed: Result<seq<Image>, string>) {
    !(c.apiCaPath != "" && caError.Some?) && listed.Success? ==>
      && CanSelect(listed.value, c, engine)
      && var chosen := SelectImage(listed.value, c, engine);
         chosen.Success? ==> HasTimes(chosen.value)
  }

  /** Selects among the listed images and projects the chosen one; a
      selection error becomes its message. */
  function Outcome(images: seq<Image>, c: Config, engine: RegexEngine, format: int -> string): (r: Result<Output, string>)
    requires CanSelect(images, c, engine)
    requires var chosen := SelectImage(images, c, engine); chosen.Success? ==> HasTimes(chosen.value)
    ensures (forall k :: 0 <= k < |images| ==> !Passes(c, engine, images[k])) ==> r == Failure(NoImage.Message())
    ensures (!c.latest && exists i, j :: 0 <= i < j < |images| && Passes(c, engine, images[i]) && Passes(c, engine, images[j]))
      ==> r == Failure(MultipleImages.Message())
    ensures r.Success? <==> (
      && (exists k :: 0 <= k < |images| && Passes(c, engine, images[k]))
      && (c.latest || forall i, j :: 0 <= i < j < |images| && Passes(c, engine, images[i]) ==> !Passes(c, engine, images[j])))
    ensures r.Success? ==> exists img :: img in images && Passes(c, engine, img) && HasTimes(img) && r.value == GetOutput(img, format)
    ensures r.Success? ==> SelectImage(images, c, engine).Success?
    ensures r.Success? ==> r.value == GetOutput(SelectImage(images, c, engine).value, format)
  {
    var chosen := SelectImage(images, c, engine);
    match chosen
    case Failure(e) => Failure(e.Message())
    case Success(img) =>
      Success(GetOutput(img, format))
  }

  /** Creates the client (which fails only with a CA file configured), lists
      the images matching the API filter, selects one and projects it.
      `caError` is the outcome of creating a client with a CA file and
      `listed` that of the listing. */
  function Execute(c: Config, engine: RegexEngine, format: int -> string,
                   caError: Option<string>, listed: Result<seq<Image>, string>): (r: ExecuteResult)
    requires CanExecute(c, engine, caError, listed)
    ensures c.apiCaPath != "" && caError.Some? ==> r == ExecuteResult(None, Failure(caError.value))
    ensures !(c.apiCaPath != "" && caError.Some?) ==> r.request == Some(ApiFilter(c))
    ensures !(c.apiCaPath != "" && caError.Some?) && listed.Failure? ==> r.result == Failure(listed.error)
    ensures !(c.apiCaPath != "" && caError.Some?) && listed.Success? ==>
      r.result == Outcome(listed.value, c, engine, format)
  {
    if c.apiCaPath != "" && caError.Some? then ExecuteResult(None, Failure(caError.value))
    else
      var request := ApiFilter(c);
      match listed
      case Failure(e) => ExecuteResult(Some(request), Failure(e))
      case Success(images) => ExecuteResult(Some(request), Outcome(images, c, engine, format))
  }
}
