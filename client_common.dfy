/**
 * What the two uploader components (`Home` and `BookCoverUploader`) share: the
 * hard-coded image origin, their fixed messages, the outcome of their one
 * `fetch("/api/process")`, and the reading of a parsed reply
 * (`data.success ? image : data.message || fallback`), which both write identically.
 */
module ClientCommon {
  import opened JsValues

  /** The origin the clients prefix to a processed image's path (fixed in the client, not configurable). */
  const ImageOrigin := "http://localhost:5000"
  const ProcessEndpoint := "/api/process"
  /** Form field under which the selected file is sent. */
  const ImageField := "image"
  const NoFileMessage := "Please select an image file"
  const FallbackMessage := "Failed to process image"

  /** A file picked in the browser's file dialog. */
  datatype File = File(name: string)

  /** The request `handleSubmit` issues: its method, its URL and the fields of its form. */
  datatype Submission = Submission(verb: string, url: string, form: map<string, File>)

  /** A POST to the proxy endpoint of a form holding the file under `image` and nothing else. */
  function SubmissionOf(f: File): (s: Submission)
    ensures s.verb == "POST" && s.url == ProcessEndpoint
    ensures s.form.Keys == {ImageField} && s.form[ImageField] == f
  {
    Submission("POST", ProcessEndpoint, map[ImageField := f])
  }

  /** What `fetch("/api/process", {method: "POST", body})` did: threw, or resolved with a status and a body that parses as JSON or not. */
  datatype FetchOutcome = FetchThrew(e: Thrown) | Responded(status: HttpStatus, body: JsonOutcome)

  /** The visible result of one settled submission: a processed image to show, or an error text. */
  datatype Settlement = ShowImage(url: string) | ShowError(message: string)

  /** A processed-image reference the clients build: the image origin followed by something. */
  predicate IsImageUrl(u: string) {
    |u| >= |ImageOrigin| && u[..|ImageOrigin|] == ImageOrigin
  }

  /**
   * The `if (data.success) ... else ...` block on a parsed reply. `None` when
   * `data` is `null`, where reading `data.success` throws into the catch block.
   */
  function Interpret(data: Json): (r: Option<Settlement>)
    ensures r.None? <==> data == JNull
    ensures r.Some? ==> (r.value.ShowImage? <==> Truthy(Field(data, "success")))
    ensures r.Some? && r.value.ShowImage? ==>
              IsImageUrl(r.value.url) && r.value.url[|ImageOrigin|..] == TemplateString(Field(data, "url"))
    ensures r.Some? && r.value.ShowError? && Truthy(Field(data, "message")) ==>
              r.value.message == TemplateString(Field(data, "message"))
    ensures r.Some? && r.value.ShowError? && !Truthy(Field(data, "message")) ==>
              r.value.message == FallbackMessage
  {
    match Prop(data, "success")
    case Err => None
    case Got(success) =>
      if Truthy(success) then
        Some(ShowImage(ImageOrigin + TemplateString(Field(data, "url"))))
      else
        var message := Field(data, "message");
        Some(ShowError(if Truthy(message) then TemplateString(message) else FallbackMessage))
  }

  /** A reply `{success: true, url: p}` shows the image at the origin followed by `p`. */
  lemma InterpretSuccess(data: Json, path: string)
    requires Field(data, "success") == Some(JBool(true))
    requires Field(data, "url") == Some(JStr(path))
    ensures Interpret(data) == Some(ShowImage(ImageOrigin + path))
  {
    var u := Interpret(data).value.url;
    assert u == u[..|ImageOrigin|] + u[|ImageOrigin|..];
  }

  /** A reply `{success: false, message: m}` with a non-empty `m` shows exactly `m`. */
  lemma InterpretFailure(data: Json, message: string)
    requires Field(data, "success") == Some(JBool(false))
    requires Field(data, "message") == Some(JStr(message)) && message != ""
    ensures Interpret(data) == Some(ShowError(message))
  {
  }
}
