/**
 * The `BookCoverUploader` component: the same five state cells as the `Home`
 * page, but its submit handler never looks at `response.ok`. It reads the JSON
 * body of every reply, so the message of an error envelope from the proxy (a
 * 503 included) is what the user sees. It also offers a download of the
 * processed image.
 */
module CoverUploader {
  import opened JsValues
  import opened ClientCommon

  const ProcessingErrorMessage := "Error processing image. Make sure the Python server is running."
  const DownloadName := "processed-book-cover.jpg"

  /**
   * What a settled submission shows. Whatever the HTTP status, a parsed body is
   * read as an envelope; only a network failure, an unparsable body or a `null`
   * body end in the generic message.
   */
  function UploaderSettlement(outcome: FetchOutcome): (r: Settlement)
    ensures r.ShowImage? ==> IsImageUrl(r.url)
    ensures outcome.FetchThrew? ==> r == ShowError(ProcessingErrorMessage)
    ensures outcome.Responded? && outcome.body.ParseThrew? ==> r == ShowError(ProcessingErrorMessage)
    ensures outcome.Responded? && outcome.body.Parsed? ==>
              r == Interpret(outcome.body.value).GetOr(ShowError(ProcessingErrorMessage))
  {
    match outcome
    case FetchThrew(_) => ShowError(ProcessingErrorMessage)
    case Responded(_, body) =>
      match body
      case ParseThrew(_) => ShowError(ProcessingErrorMessage)
      case Parsed(data) => Interpret(data).GetOr(ShowError(ProcessingErrorMessage))
  }

  /** The HTTP status plays no part: the same body gives the same result under any two statuses. */
  lemma StatusIgnored(s1: HttpStatus, s2: HttpStatus, body: JsonOutcome)
    ensures UploaderSettlement(Responded(s1, body)) == UploaderSettlement(Responded(s2, body))
  {
  }

  /** The anchor `downloadImage` clicks. */
  datatype DownloadLink = DownloadLink(href: string, download: string)

  class BookCoverUploader {
    var file: Option<File>
    var preview: Option<string>
    var processedImage: Option<string>
    var loading: bool
    var error: Option<string>

    /** Requests sent to the proxy endpoint, one per submission issued, in order. */
    ghost var sent: seq<Submission>
    /** Requests issued and not yet settled. */
    ghost var inFlight: nat
    /** Preview reads started by a selection whose `onload` has not yet run. */
    ghost var pendingReads: nat

    ghost predicate Valid()
      reads this
    {
      && (loading ==> inFlight > 0)
      && (processedImage.Some? ==> IsImageUrl(processedImage.value))
    }

    /** `disabled={!file || loading}`: the submit button is enabled with a file chosen and nothing loading. */
    predicate SubmitEnabled()
      reads this
    {
      file.Some? && !loading
    }

    constructor ()
      ensures Valid()
      ensures file == None && preview == None && processedImage == None && !loading && error == None
      ensures sent == [] && inFlight == 0 && pendingReads == 0
      ensures !SubmitEnabled()
    {
      file, preview, processedImage, loading, error := None, None, None, false, None;
      sent, inFlight, pendingReads := [], 0, 0;
    }

    /**
     * `handleFileChange` with the input's file list (`None` when the list is null).
     * Choosing a file sets `file`, clears `error` and starts reading a preview;
     * it leaves `preview` and `processedImage` as they were. An empty choice changes nothing.
     */
    method HandleFileChange(files: Option<seq<File>>)
      requires Valid()
      modifies this`file, this`error, this`pendingReads
      ensures Valid()
      ensures files.Some? && |files.value| > 0 ==>
                file == Some(files.value[0]) && error == None && pendingReads == old(pendingReads) + 1
      ensures !(files.Some? && |files.value| > 0) ==>
                file == old(file) && error == old(error) && pendingReads == old(pendingReads)
    {
      if files.Some? && |files.value| > 0 {
        file := Some(files.value[0]);
        error := None;
        pendingReads := pendingReads + 1;
      }
    }

    /** The `FileReader`'s `onload`: the data URL becomes the preview. */
    method PreviewLoaded(dataUrl: string)
      requires Valid() && pendingReads > 0
      modifies this`preview, this`pendingReads
      ensures Valid()
      ensures preview == Some(dataUrl) && pendingReads == old(pendingReads) - 1
    {
      preview := Some(dataUrl);
      pendingReads := pendingReads - 1;
    }

    /**
     * `handleSubmit` up to its `await fetch`. Without a file it only sets the
     * error and issues nothing; with one it sets `loading`, clears `error` and
     * sends the file, after which the button is disabled.
     */
    method BeginSubmit() returns (started: bool)
      requires Valid()
      modifies this`error, this`loading, this`sent, this`inFlight
      ensures Valid()
      ensures started <==> file.Some?
      ensures !started ==>
                error == Some(NoFileMessage) && loading == old(loading) &&
                sent == old(sent) && inFlight == old(inFlight)
      ensures started ==>
                loading && error == None && sent == old(sent) + [SubmissionOf(file.value)] && inFlight == old(inFlight) + 1
      ensures started ==> !SubmitEnabled()
    {
      if file.None? {
        error := Some(NoFileMessage);
        return false;
      }
      loading := true;
      error := None;
      sent := sent + [SubmissionOf(file.value)];
      inFlight := inFlight + 1;
      started := true;
    }

    /**
     * The rest of `handleSubmit` once the request settles: the image or the
     * error is set as `UploaderSettlement` says, and `finally` clears `loading`
     * on every path.
     */
    method Settle(outcome: FetchOutcome)
      requires Valid() && inFlight > 0
      modifies this`processedImage, this`error, this`loading, this`inFlight
      ensures Valid()
      ensures !loading && inFlight == old(inFlight) - 1
      ensures SubmitEnabled() <==> file.Some?
      ensures UploaderSettlement(outcome).ShowImage? ==>
                processedImage == Some(UploaderSettlement(outcome).url) && error == old(error)
      ensures UploaderSettlement(outcome).ShowError? ==>
                error == Some(UploaderSettlement(outcome).message) && processedImage == old(processedImage)
    {
      var settlement := UploaderSettlement(outcome);
      match settlement {
        case ShowImage(url) => processedImage := Some(url);
        case ShowError(message) => error := Some(message);
      }
      loading := false;
      inFlight := inFlight - 1;
    }

    /**
     * `downloadImage`: guarded by the truthiness of `processedImage`. Since a
     * processed image always starts with the image origin, the guard passes
     * exactly when there is one, and the link points at it.
     */
    method DownloadImage() returns (link: Option<DownloadLink>)
      requires Valid()
      ensures link.Some? <==> processedImage.Some?
      ensures link.Some? ==> link.value == DownloadLink(processedImage.value, DownloadName)
    {
      if processedImage.Some? && processedImage.value != "" {
        link := Some(DownloadLink(processedImage.value, DownloadName));
      } else {
        link := None;
      }
    }
  }
}
