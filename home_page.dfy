/**
 * The `Home` page: five state cells driven by the file picker and the submit
 * handler. The asynchronous submit handler is split into `BeginSubmit` (up to
 * the `await fetch`) and `Settle` (the rest of the try/catch/finally), so that
 * the in-flight state with `loading` set is observable. This page treats every
 * non-ok HTTP status as a thrown error.
 */
module HomePage {
  import opened JsValues
  import opened ClientCommon

  const ConnectivityMessage := "Error connecting to server. Make sure the Python server is running."

  /**
   * What a settled submission shows. A non-ok status is thrown before the body
   * is read, so it ends in the connectivity message like a network failure or
   * an unparsable body; the status code itself never reaches the user.
   */
  function HomeSettlement(outcome: FetchOutcome): (r: Settlement)
    ensures r.ShowImage? ==> IsImageUrl(r.url)
    ensures outcome.FetchThrew? ==> r == ShowError(ConnectivityMessage)
    ensures outcome.Responded? && !IsOk(outcome.status) ==> r == ShowError(ConnectivityMessage)
    ensures outcome.Responded? && outcome.body.ParseThrew? ==> r == ShowError(ConnectivityMessage)
    ensures outcome.Responded? && IsOk(outcome.status) && outcome.body.Parsed? ==>
              r == Interpret(outcome.body.value).GetOr(ShowError(ConnectivityMessage))
    ensures r.ShowImage? ==> outcome.Responded? && IsOk(outcome.status)
  {
    match outcome
    case FetchThrew(_) => ShowError(ConnectivityMessage)
    case Responded(status, body) =>
      if !IsOk(status) then ShowError(ConnectivityMessage)
      else
        match body
        case ParseThrew(_) => ShowError(ConnectivityMessage)
        case Parsed(data) => Interpret(data).GetOr(ShowError(ConnectivityMessage))
  }

  /** Two replies that differ only in their non-ok status look the same to the user. */
  lemma StatusNeverShown(s1: HttpStatus, b1: JsonOutcome, s2: HttpStatus, b2: JsonOutcome)
    requires !IsOk(s1) && !IsOk(s2)
    ensures HomeSettlement(Responded(s1, b1)) == HomeSettlement(Responded(s2, b2))
  {
  }

  class Home {
    var file: Option<File>
    var preview: Option<string>
    var processedImage: Option<string>
    var loading: bool
    var error: Option<string>

    /** Requests sent to the proxy endpoint, one per submission issued, in order. */
    ghost var sent: seq<Submission>
    /** Requests issued and not yet settled. */
    ghost var inFlight: nat
    /** Preview reads started by a selection whose `onload` has not yet run. */
    ghost var pendingReads: nat

    ghost predicate Valid()
      reads this
    {
      && (loading ==> inFlight > 0)
      && (processedImage.Some? ==> IsImageUrl(processedImage.value))
    }

    /** `disabled={!file || loading}`: the submit button is enabled with a file chosen and nothing loading. */
    predicate SubmitEnabled()
      reads this
    {
      file.Some? && !loading
    }

    constructor ()
      ensures Valid()
      ensures file == None && preview == None && processedImage == None && !loading && error == None
      ensures sent == [] && inFlight == 0 && pendingReads == 0
      ensures !SubmitEnabled()
    {
      file, preview, processedImage, loading, error := None, None, None, false, None;
      sent, inFlight, pendingReads := [], 0, 0;
    }

    /**
     * `handleFileChange` with the input's file list (`None` when the list is null).
     * Choosing a file sets `file`, clears `error` and starts reading a preview;
     * it leaves `preview` and `processedImage` as they were. An empty choice changes nothing.
     */
    method HandleFileChange(files: Option<seq<File>>)
      requires Valid()
      modifies this`file, this`error, this`pendingReads
      ensures Valid()
      ensures files.Some? && |files.value| > 0 ==>
                file == Some(files.value[0]) && error == None && pendingReads == old(pendingReads) + 1
      ensures !(files.Some? && |files.value| > 0) ==>
                file == old(file) && error == old(error) && pendingReads == old(pendingReads)
    {
      if files.Some? && |files.value| > 0 {
        file := Some(files.value[0]);
        error := None;
        pendingReads := pendingReads + 1;
      }
    }

    /** The `FileReader`'s `onload`: the data URL becomes the preview. */
    method PreviewLoaded(dataUrl: string)
      requires Valid() && pendingReads > 0
      modifies this`preview, this`pendingReads
      ensures Valid()
      ensures preview == Some(dataUrl) && pendingReads == old(pendingReads) - 1
    {
      preview := Some(dataUrl);
      pendingReads := pendingReads - 1;
    }

    /**
     * `handleSubmit` up to its `await fetch`. Without a file it only sets the
     * error and issues nothing; with one it sets `loading`, clears `error` and
     * sends the file, after which the button is disabled.
     */
    method BeginSubmit() returns (started: bool)
      requires Valid()
      modifies this`error, this`loading, this`sent, this`inFlight
      ensures Valid()
      ensures started <==> file.Some?
      ensures !started ==>
                error == Some(NoFileMessage) && loading == old(loading) &&
                sent == old(sent) && inFlight == old(inFlight)
      ensures started ==>
                loading && error == None && sent == old(sent) + [SubmissionOf(file.value)] && inFlight == old(inFlight) + 1
      ensures started ==> !SubmitEnabled()
    {
      if file.None? {
        error := Some(NoFileMessage);
        return false;
      }
      loading := true;
      error := None;
      sent := sent + [SubmissionOf(file.value)];
      inFlight := inFlight + 1;
      started := true;
    }

    /**
     * The rest of `handleSubmit` once the request settles: the image or the
     * error is set as `HomeSettlement` says, and `finally` clears `loading` on
     * every path.
     */
    method Settle(outcome: FetchOutcome)
      requires Valid() && inFlight > 0
      modifies this`processedImage, this`error, this`loading, this`inFlight
      ensures Valid()
      ensures !loading && inFlight == old(inFlight) - 1
      ensures SubmitEnabled() <==> file.Some?
      ensures HomeSettlement(outcome).ShowImage? ==>
                processedImage == Some(HomeSettlement(outcome).url) && error == old(error)
      ensures HomeSettlement(outcome).ShowError? ==>
                error == Some(HomeSettlement(outcome).message) && processedImage == old(processedImage)
    {
      var settlement := HomeSettlement(outcome);
      match settlement {
        case ShowImage(url) => processedImage := Some(url);
        case ShowError(message) => error := Some(message);
      }
      loading := false;
      inFlight := inFlight - 1;
    }
  }
}
