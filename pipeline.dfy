/**
 * The components composed: the backend's reply passes through the proxy
 * endpoint and is read by either uploader. These lemmas state what the user
 * ends up seeing for each way a submission can go, and how the two uploaders
 * differ.
 */
module Pipeline {
  import opened JsValues
  import opened ClientCommon
  import opened ProxyRoute
  import Server
  import HomePage
  import CoverUploader

  /** The proxy's reply as the browser's `fetch` sees it (the JSON body re-parses to itself). */
  function AsSeenByClient(reply: Reply): FetchOutcome {
    Responded(reply.status, Parsed(reply.body))
  }

  /**
   * A failed probe: `BookCoverUploader` shows the proxy's "Backend service is
   * unavailable", while `Home`, which throws on the 503, shows its connectivity message.
   */
  lemma UnavailableBackendAsShown(apiUrl: string, health: HealthOutcome, forward: ForwardOutcome, nullBodyError: string)
    requires !CheckBackendHealth(health)
    ensures CoverUploader.UploaderSettlement(AsSeenByClient(Post(apiUrl, health, forward, nullBodyError).reply))
            == ShowError(UnavailableMessage)
    ensures HomePage.HomeSettlement(AsSeenByClient(Post(apiUrl, health, forward, nullBodyError).reply))
            == ShowError(HomePage.ConnectivityMessage)
  {
    var reply := Post(apiUrl, health, forward, nullBodyError).reply;
    InterpretFailure(reply.body, UnavailableMessage);
  }

  /**
   * An upstream error status: `BookCoverUploader` shows the proxy's
   * "Backend error (<status>): <text>", `Home` only its connectivity message.
   */
  lemma BackendErrorAsShown(apiUrl: string, health: HealthOutcome, status: HttpStatus, text: Option<string>, json: JsonOutcome,
                            nullBodyError: string)
    requires CheckBackendHealth(health) && !IsOk(status) && status != 304
    ensures CoverUploader.UploaderSettlement(AsSeenByClient(Post(apiUrl, health, UploadReplied(status, text, json), nullBodyError).reply))
            == ShowError(BackendErrorMessage(status, text.GetOr(UnknownError)))
    ensures HomePage.HomeSettlement(AsSeenByClient(Post(apiUrl, health, UploadReplied(status, text, json), nullBodyError).reply))
            == ShowError(HomePage.ConnectivityMessage)
  {
    var reply := Post(apiUrl, health, UploadReplied(status, text, json), nullBodyError).reply;
    InterpretFailure(reply.body, BackendErrorMessage(status, text.GetOr(UnknownError)));
  }

  /**
   * An upstream 304: the proxy cannot pass that status on with a body, so the
   * user of `BookCoverUploader` sees "Failed to process request" rather than a
   * backend error, and `Home` its connectivity message.
   */
  lemma NotModifiedAsShown(apiUrl: string, health: HealthOutcome, text: Option<string>, json: JsonOutcome,
                           nullBodyError: string)
    requires CheckBackendHealth(health)
    ensures Post(apiUrl, health, UploadReplied(304, text, json), nullBodyError).reply.status == 500
    ensures CoverUploader.UploaderSettlement(AsSeenByClient(Post(apiUrl, health, UploadReplied(304, text, json), nullBodyError).reply))
            == ShowError(FailedMessage)
    ensures HomePage.HomeSettlement(AsSeenByClient(Post(apiUrl, health, UploadReplied(304, text, json), nullBodyError).reply))
            == ShowError(HomePage.ConnectivityMessage)
  {
    var reply := Post(apiUrl, health, UploadReplied(304, text, json), nullBodyError).reply;
    InterpretFailure(reply.body, FailedMessage);
  }

  /**
   * Anything thrown on the proxy's forward path: `BookCoverUploader` shows
   * "Failed to process request", `Home` its connectivity message.
   */
  lemma ForwardCrashAsShown(apiUrl: string, health: HealthOutcome, forward: ForwardOutcome, nullBodyError: string)
    requires CheckBackendHealth(health)
    requires forward.FormDataThrew? || forward.UploadThrew?
    ensures CoverUploader.UploaderSettlement(AsSeenByClient(Post(apiUrl, health, forward, nullBodyError).reply))
            == ShowError(FailedMessage)
    ensures HomePage.HomeSettlement(AsSeenByClient(Post(apiUrl, health, forward, nullBodyError).reply))
            == ShowError(HomePage.ConnectivityMessage)
  {
    var reply := Post(apiUrl, health, forward, nullBodyError).reply;
    InterpretFailure(reply.body, FailedMessage);
  }

  /**
   * A valid upload that the backend processes: the proxy relays the backend's
   * envelope, and both uploaders show the image at the client's origin followed
   * by `/processed/<id>.jpg`.
   */
  lemma ProcessedImageAsShown(apiUrl: string, health: HealthOutcome, files: map<string, Server.Upload>,
                              uploadId: string, optimizedId: string, text: Option<string>, nullBodyError: string)
    requires CheckBackendHealth(health)
    requires "image" in files && files["image"].filename != ""
    ensures var backend := Server.UploadImage(files, uploadId, optimizedId, Server.ProcessingOk);
            var reply := Post(apiUrl, health, UploadReplied(backend.status, text, Parsed(backend.body)), nullBodyError).reply;
            && reply == Reply(200, backend.body)
            && HomePage.HomeSettlement(AsSeenByClient(reply)) == ShowImage(ImageOrigin + Server.ProcessedUrl(optimizedId))
            && CoverUploader.UploaderSettlement(AsSeenByClient(reply)) == ShowImage(ImageOrigin + Server.ProcessedUrl(optimizedId))
  {
    var backend := Server.UploadImage(files, uploadId, optimizedId, Server.ProcessingOk);
    InterpretSuccess(backend.body, Server.ProcessedUrl(optimizedId));
  }

  /**
   * A valid upload whose processing raises: the backend's 500 goes through the
   * proxy as a backend error, which `BookCoverUploader` shows with the status
   * 500 and `Home` hides behind its connectivity message.
   */
  lemma ProcessingFailureAsShown(apiUrl: string, health: HealthOutcome, files: map<string, Server.Upload>,
                                 uploadId: string, optimizedId: string, reason: string, text: Option<string>,
                                 nullBodyError: string)
    requires CheckBackendHealth(health)
    requires "image" in files && files["image"].filename != ""
    ensures var backend := Server.UploadImage(files, uploadId, optimizedId, Server.ProcessingRaised(reason));
            var reply := Post(apiUrl, health, UploadReplied(backend.status, text, Parsed(backend.body)), nullBodyError).reply;
            && reply.status == 500
            && CoverUploader.UploaderSettlement(AsSeenByClient(reply))
               == ShowError(BackendErrorMessage(500, text.GetOr(UnknownError)))
            && HomePage.HomeSettlement(AsSeenByClient(reply)) == ShowError(HomePage.ConnectivityMessage)
  {
    var backend := Server.UploadImage(files, uploadId, optimizedId, Server.ProcessingRaised(reason));
    BackendErrorAsShown(apiUrl, health, 500, text, Parsed(backend.body), nullBodyError);
  }

  /** The form a client submits, as the backend's `request.files` sees it after the proxy forwards it unchanged. */
  function UploadsOf(form: map<string, File>): map<string, Server.Upload> {
    map k | k in form :: Server.Upload(form[k].name)
  }

  /**
   * The field name the clients use is the one the backend looks for: a
   * submitted file is saved by the backend exactly when its name is non-empty,
   * and otherwise refused for its empty name, never as missing.
   */
  lemma SubmissionReachesUpload(f: File, uploadId: string, optimizedId: string, processing: Server.Processing)
    ensures var r := Server.UploadImage(UploadsOf(SubmissionOf(f).form), uploadId, optimizedId, processing);
            && (r.savedUpload.Some? <==> f.name != "")
            && (f.name == "" ==> r.status == 400 && Field(r.body, "error") == Some(JStr(Server.EmptyFilenameMessage)))
  {
    var files := UploadsOf(SubmissionOf(f).form);
    assert "image" in files && files["image"] == Server.Upload(f.name);
  }

  /**
   * A fresh `Home` page: pick a file, submit, let the request settle. The
   * request carries that file, and the page ends with `loading` off and exactly
   * one of a processed image or an error.
   */
  method SelectAndSubmit(f: File, outcome: FetchOutcome) returns (home: HomePage.Home)
    ensures fresh(home) && home.Valid()
    ensures home.sent == [SubmissionOf(f)] && home.inFlight == 0
    ensures !home.loading && home.SubmitEnabled()
    ensures home.processedImage.Some? != home.error.Some?
    ensures home.processedImage.Some? <==> HomePage.HomeSettlement(outcome).ShowImage?
  {
    home := new HomePage.Home();
    home.HandleFileChange(Some([f]));
    var started := home.BeginSubmit();
    home.Settle(outcome);
  }
}
