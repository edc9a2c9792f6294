# Bookinary upload pipeline — a Dafny model

Bookinary lets a user upload a photo of a book, has a Python backend find and
crop the cover, and shows the processed image. This project models the
decision logic of that pipeline and proves properties of it:

- **Proxy endpoint** (`/api/process`, `ProxyRoute`): a liveness probe of the
  backend's `/health`, then a forward of the form to the backend's `/upload`.
  Every outcome of the probe and the forward maps to exactly one JSON reply.
  `GET` reports `healthy`/200 or `degraded`/503. Network calls are abstract
  outcomes. A call trace records the handler's steps, so that "the forward is
  never issued after a failed probe" can be stated.
- **Two uploader components** (`HomePage.Home` and
  `CoverUploader.BookCoverUploader`): classes holding the five state cells
  `file`, `preview`, `processedImage`, `loading` and `error`. The asynchronous
  submit handler is split into `BeginSubmit` (up to the `await fetch`) and
  `Settle` (the rest of try/catch/finally), so the in-flight state with
  `loading` set is visible. `Home` turns every non-ok status into its
  connectivity message. `BookCoverUploader` never checks `response.ok` and shows
  the message inside whatever envelope arrives.
- **Backend rules** (`Server`): the corner ordering `order_points`, the
  contour-selection loop of `crop_book_cover`, the width guard of
  `optimize_image`, and the validation and envelopes of `upload_image`.
- **The composition** (`Pipeline`): what each uploader shows for each way a
  submission can go through the proxy and the backend.

`JsValues` holds the JavaScript runtime facts the web code relies on. These are
truthiness, property access on a parsed body (which throws on `null`), the
string conversion of template literals, and the 200–599 status range of a
`fetch` response. `ClientCommon` holds the reading of a reply that both
uploaders share.

The model follows the code as written; in particular:

- Selecting a file does not clear `processedImage` or `preview`.
- `Home` never shows the HTTP status code of a failed reply. It shows its fixed
  connectivity message instead.
- `handleSubmit` does not check `loading`. Only the disabled button keeps a
  second submission from starting.
- The proxy relays an ok upstream body with status 200 whatever the upstream
  ok status was, because `NextResponse.json(data)` uses its default status.
- An upstream 304 is not passed on. `NextResponse.json` refuses a body with
  that null-body status and throws. The catch block then answers 500 with
  "Failed to process request".

## Model

| member | source | states |
|---|---|---|
| `JsValues.Prop` | website/app/page.tsx:60 | reading a property of `null` throws; on an object it yields the member if present and `undefined` otherwise |
| `JsValues.Decimal` | website/app/api/process/route.ts:61 | `${status}` renders digits only, non-empty, with no leading zero |
| `JsValues.DecimalRoundTrip` | website/app/api/process/route.ts:61 | reading the rendered digits back gives the status again |
| `JsValues.DecimalInjective` | website/app/api/process/route.ts:61 | different statuses render differently |
| `JsValues.TemplateString` | website/app/page.tsx:62 | `${data.url}` is the string itself for a string, and "undefined" for a missing member |
| `ProxyRoute.ApiUrl` | website/app/api/process/route.ts:3 | the backend origin is `BACKEND_URL` when it is set and non-empty, otherwise `http://localhost:5000`; never empty |
| `ProxyRoute.CheckBackendHealth` | website/app/api/process/route.ts:12-25 | the probe is true only for a `/health` reply with status 200–299; a thrown error (abort on deadline included) gives false |
| `ProxyRoute.Failure` | website/app/api/process/route.ts:33-36 | the failure envelope has `success` false, the given `message`, and no `error` member |
| `ProxyRoute.Crash` | website/app/api/process/route.ts:78-82 | the exception envelope has `success` false, message "Failed to process request", and the error text |
| `ProxyRoute.BackendErrorMessage` | website/app/api/process/route.ts:61 | the message starts with "Backend error (" and ends with the upstream body text |
| `ProxyRoute.BackendErrorMessageInjective` | website/app/api/process/route.ts:56-67 | the upstream status and the body text can both be recovered from the backend-error message |
| `ProxyRoute.Post` | website/app/api/process/route.ts:28-84 | the probe is always the first call. A failed probe gives 503 "Backend service is unavailable" with no form read and no forward (iff). The forward to `API_URL/upload` is issued exactly when the probe passed and the form was read, and comes third. An upstream error status s other than 304 gives status s and "Backend error (s): text", with "Unknown error" for an unreadable body. An upstream 304 gives 500 with the runtime's `TypeError` message, because a 304 reply cannot carry the envelope. An upstream success relays the parsed body with status 200. Anything thrown gives 500 with the error message. Every reply the proxy builds itself has `success` false |
| `ProxyRoute.Get` | website/app/api/process/route.ts:87-94 | status 200 with "healthy" iff the probe passes, else 503 with "degraded"; the timestamp is echoed |
| `ProxyRoute.GetAgreesWithPost` | website/app/api/process/route.ts:87-94 | `GET` reports 200 exactly when a `POST` would get past the probe and read the form |
| `ClientCommon.SubmissionOf` | website/app/page.tsx:44-52 | a submission is a POST to `/api/process` of a form whose only field is `image`, holding the chosen file |
| `ClientCommon.Interpret` | website/app/page.tsx:58-65 | a `null` body throws. A truthy `success` shows the image origin followed by `${data.url}`. Otherwise the error is `data.message` when it is truthy, else "Failed to process image" |
| `ClientCommon.InterpretSuccess` | website/app/page.tsx:60-62 | `{success: true, url: p}` shows `http://localhost:5000` followed by p |
| `ClientCommon.InterpretFailure` | website/app/page.tsx:63-65 | `{success: false, message: m}` with a non-empty m shows exactly m |
| `HomePage.HomeSettlement` | website/app/page.tsx:54-68 | a network failure, any non-ok status and an unparsable body all end in the connectivity message. An ok status reads the body as an envelope. An image is shown only for an ok status, and always starts with the image origin |
| `HomePage.StatusNeverShown` | website/app/page.tsx:54-56 | two replies with non-ok statuses look the same to the user, so the status code never reaches them |
| `HomePage.Home.constructor` | website/app/page.tsx:12-16 | all five cells start empty or false, and the submit button starts disabled |
| `HomePage.Home.HandleFileChange` | website/app/page.tsx:18-31 | choosing a file sets `file`, clears `error` and starts a preview read. `preview`, `processedImage` and `loading` are untouched. An empty or null selection changes nothing |
| `HomePage.Home.PreviewLoaded` | website/app/page.tsx:26-28 | the reader's result becomes the preview |
| `HomePage.Home.BeginSubmit` | website/app/page.tsx:36-52 | with no file: error "Please select an image file", `loading` unchanged, no request. With a file: `loading` set, `error` cleared, exactly one POST of that file to `/api/process` recorded, and the button disabled |
| `HomePage.Home.Settle` | website/app/page.tsx:54-71 | `loading` ends false on every path, and the button is enabled again iff a file is set. The image or the error is set as `HomeSettlement` says, and the other cell is unchanged |
| `CoverUploader.UploaderSettlement` | website/components/ui-components.tsx:54-64 | the body is read as an envelope whatever the status. A network failure or an unparsable or null body gives "Error processing image. Make sure the Python server is running." |
| `CoverUploader.StatusIgnored` | website/components/ui-components.tsx:49-61 | the same body gives the same result under any two HTTP statuses |
| `CoverUploader.BookCoverUploader.constructor` | website/components/ui-components.tsx:12-16 | all five cells start empty or false, and the submit button starts disabled |
| `CoverUploader.BookCoverUploader.HandleFileChange` | website/components/ui-components.tsx:18-31 | choosing a file sets `file`, clears `error` and starts a preview read; an empty selection changes nothing |
| `CoverUploader.BookCoverUploader.PreviewLoaded` | website/components/ui-components.tsx:26-28 | the reader's result becomes the preview |
| `CoverUploader.BookCoverUploader.BeginSubmit` | website/components/ui-components.tsx:36-52 | with no file: the error is set and nothing is sent. With a file: `loading` set, `error` cleared, one POST of that file to `/api/process` recorded, and the button disabled |
| `CoverUploader.BookCoverUploader.Settle` | website/components/ui-components.tsx:54-67 | `loading` ends false on every path. The image or the error is set as `UploaderSettlement` says |
| `CoverUploader.BookCoverUploader.DownloadImage` | website/components/ui-components.tsx:70-79 | there is no link when there is no processed image. Otherwise the link targets the processed image with the name "processed-book-cover.jpg". The truthiness guard equals "is set" because a processed image is never empty |
| `Server.ArgMin` | server.py:121 | `np.argmin`: an index of a smallest key, the earliest among equal ones |
| `Server.ArgMax` | server.py:122 | `np.argmax`: an index of a largest key, the earliest among equal ones |
| `Server.OrderPoints` | server.py:105-130 | every returned corner is an input point. Corner 0 has the smallest x+y and corner 2 the largest. Corner 1 has the smallest y−x and corner 3 the largest. Ties go to the earliest input |
| `Server.OrderPointsOfRectangle` | server.py:105-130 | for the four corners of an upright rectangle in any order, the result is top-left, top-right, bottom-right, bottom-left |
| `Server.OrderPointsRepeatsCornerOfDiamond` | server.py:118-128 | for a square turned by 45°, the top vertex is returned twice and the bottom vertex is lost |
| `Server.FirstQualifying` | server.py:54-62 | the first contour with exactly 4 approximated vertices and area > h·w/20, or none when no contour qualifies |
| `Server.FirstQualifyingAt` | server.py:54-62 | a qualifying contour with no qualifying contour before it is the one the loop stops at |
| `Server.SelectCover` | server.py:49-101 | the first qualifying contour is warped, with its corners put in order, and no later contour is examined. With none, the original image is kept after examining all contours |
| `Server.ChosenIsLargestQualifying` | server.py:48-53 | with contours in descending area order, the chosen contour has the largest area among the qualifying ones |
| `Server.OptimizedWidth` | server.py:147-151 | the width after optimisation is the smaller of the width and `max_width`; it changes only when the width exceeds `max_width` |
| `Server.UploadOptimizedWidth` | server.py:132 | as `upload_image` calls it (default `max_width` 1080), the optimised width is at most 1080, and it equals the input width exactly when that is at most 1080 |
| `Server.OptimizedWidthIdempotent` | server.py:147-151 | optimising an optimised image leaves its width alone |
| `Server.UploadImage` | server.py:158-204 | a missing `image` field gives 400 "No image file provided". Then an empty filename gives 400 "Empty filename". Neither saves anything. The upload is saved iff both checks pass. Status 200 iff saved and processing succeeded, with `success` true and `url` "/processed/<id>.jpg". A processing exception gives 500 with `success` false, its text and "Failed to process the image" |
| `Pipeline.UnavailableBackendAsShown` | website/components/ui-components.tsx:54-61 | after a failed probe, `BookCoverUploader` shows "Backend service is unavailable" and `Home` shows its connectivity message |
| `Pipeline.BackendErrorAsShown` | website/app/api/process/route.ts:56-67 | after an upstream error status other than 304, `BookCoverUploader` shows "Backend error (s): text" and `Home` shows its connectivity message |
| `Pipeline.NotModifiedAsShown` | website/app/api/process/route.ts:59-82 | after an upstream 304, the proxy answers 500. `BookCoverUploader` shows "Failed to process request" and `Home` shows its connectivity message |
| `Pipeline.ForwardCrashAsShown` | website/app/api/process/route.ts:74-82 | after an exception on the forward path, `BookCoverUploader` shows "Failed to process request" and `Home` shows its connectivity message |
| `Pipeline.ProcessedImageAsShown` | server.py:190-197 | a processed upload is relayed with status 200, and both uploaders show `http://localhost:5000/processed/<id>.jpg` |
| `Pipeline.ProcessingFailureAsShown` | server.py:199-204 | a processing exception reaches the proxy as 500. `BookCoverUploader` shows "Backend error (500): text" and `Home` shows its connectivity message |
| `Pipeline.SubmissionReachesUpload` | server.py:160-171 | the form the clients send, forwarded unchanged, is never refused by the backend as missing its `image` field. It is saved exactly when the file name is non-empty, and otherwise refused with 400 "Empty filename" |
| `Pipeline.SelectAndSubmit` | website/app/page.tsx:18-71 | pick, submit, settle on a fresh page: that file is sent once, `loading` ends false, and exactly one of image and error is set |

## Left out

- Timing: the 5000 ms deadline of both proxy fetches is not modelled. A request aborted by the deadline is one kind of thrown error. That the handler returns within the deadline is not stated.
- The race between the probe and the forward: the two outcomes are independent parameters, so a backend that fails after a passing probe is just a thrown or failing forward.
- Overlapping submissions: `handleSubmit` does not check `loading`. The model only counts outstanding requests in a ghost field, and `Settle` needs one to be outstanding. Which of two overlapping replies wins is not modelled.
- The `FileReader`: the data URL is a parameter of `PreviewLoaded`. A failed read is not modelled (the source registers no `onerror`), and neither is a stale read finishing after a newer selection.
- JSON numbers are integers in the model. Floating-point values and their string forms are not modelled.
- `ProxyRoute.Post`: the text of the `TypeError` raised for an upstream 304 is a parameter, because the runtime chooses it.
- JSON serialisation and parsing between components are taken as identity: the proxy's reply body re-parses to itself in the browser. The backend's body text seen by the proxy is a parameter.
- Property access on strings and arrays is taken to give `undefined`. That is right for the keys read here (`success`, `url`, `message`), but not for built-in keys such as `length`.
- React rendering: the error cell stores the string conversion of `data.message`. Rendering an object value, which React refuses, is not modelled. JSX, styling and logging are not modelled.
- `window.open` for "View Full Size", and the DOM work of `downloadImage` beyond building the link.
- OpenCV and NumPy operations: grayscale, blur, Canny, dilation, `findContours`, `arcLength`, `approxPolyDP`, `contourArea` and the perspective warp. A contour is reduced to its approximated polygon and its area.
- Python's `sorted` by area: `SelectCover` takes the contours in the order the sort produced, and `ChosenIsLargestQualifying` assumes that order.
- Float geometry: the warp width and height, the float32 corner array (exact for pixel coordinates), and the area threshold, which is compared in exact reals rather than floats.
- `Server.OptimizedWidth`: does not state the new height `int(height * max_width / width)`, because it is float arithmetic. When that height truncates to 0, for example for a 2161×1 image, Pillow's `resize` raises and `upload_image` answers 500. The width claim therefore holds only when the scaled height is at least 1. It also does not model the RGBA/P mode conversion, JPEG encoding at quality 85, or saving.
- `Server.UploadImage`: models only the path of the saved upload among the file-system effects. The cropped temporary file, the optimised file and the removal of the temporary file are not modelled. A failing `file.save`, which happens outside the `try` and would give Flask's default error page, is not modelled either. The generated `uuid4` names are parameters.
- Flask routing, `send_from_directory` for `/processed/<filename>`, and the inline HTML test page served at `/`.
- The header menu toggle, the gallery page's mock data, the about page, and the page composition with the header: these are presentation only.
