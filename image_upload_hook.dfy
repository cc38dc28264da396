/** The `useImageUpload` hook (src/hooks/useImageUpload.ts): the client side of
    the image relay. It refuses a file before sending when the server would
    refuse it for its type or size, or when there is no token or no service
    id for a service image; otherwise it posts the form and, whatever the
    server answers, leaves `isUploading` false and the progress at 0. The
    call is split at its `await`: `Begin` runs up to the request, `Finish`
    from the response on. */
module ImageUploadHook {
  import opened Common
  import opened UserModel
  import opened ServiceModel
  import opened Auth
  import opened UploadImageRoute

  const SelectFile: string := "Please select a file"
  const ClientInvalidFileType: string := "Invalid file type. Only JPEG, PNG, and WebP are allowed"
  const ClientFileTooLarge: string := "File size too large. Maximum size is 5MB"
  const TokenMissing: string := "Authentication token not found. Please login again."
  const ClientServiceIdRequired: string := "Service ID is required for service images"
  const UploadFallback: string := "Upload failed"
  const UploadSucceeded: string := "Image uploaded successfully!"

  const ClientAllowedTypes: seq<string> := ["image/jpeg", "image/jpg", "image/png", "image/webp"]
  const ClientMaxSize: nat := 5 * 1024 * 1024

  /** The hook's options; `hasOnSuccess` says whether a callback was given. */
  datatype UploadOptions = UploadOptions(imageType: ImageKind, serviceId: Option<string>, hasOnSuccess: bool)

  datatype Toast = ErrorToast(message: string) | SuccessToast(message: string)

  /** The request `fetch` sends: the `Authorization` header and the form. */
  datatype UploadRequest = UploadRequest(authorization: string, form: UploadForm)

  /** What `fetch` and `response.json()` give: a rejection, or the status's
      `ok` flag with the body's `error` and `imageUrl`. */
  datatype FetchOutcome =
    | Rejected(message: string)
    | Answered(ok: bool, error: Option<string>, imageUrl: Option<string>)

  /** How the call ends: an early `return` (undefined), the returned
      `imageUrl`, or the rethrown error's message. */
  datatype HookResult = Declined | Returned(imageUrl: Option<string>) | Failed(message: string)

  /** The checks before sending, in order; `None` when all pass. */
  function Precheck(file: Option<ImageFile>, options: UploadOptions, token: Option<string>): (r: Option<string>)
    ensures r.None? <==> && file.Some? && file.value.mime in ClientAllowedTypes
                         && file.value.size <= ClientMaxSize && TruthyText(token)
                         && (options.imageType == ServiceImage ==> TruthyText(options.serviceId))
    ensures file.None? <==> r == Some(SelectFile)
    ensures file.Some? ==> (file.value.mime !in ClientAllowedTypes <==> r == Some(ClientInvalidFileType))
    ensures file.Some? && file.value.mime in ClientAllowedTypes ==>
              (file.value.size > ClientMaxSize <==> r == Some(ClientFileTooLarge))
    ensures file.Some? && file.value.mime in ClientAllowedTypes && file.value.size <= ClientMaxSize ==>
              (!TruthyText(token) <==> r == Some(TokenMissing))
    ensures file.Some? && file.value.mime in ClientAllowedTypes && file.value.size <= ClientMaxSize
            && TruthyText(token) ==>
              (options.imageType == ServiceImage && !TruthyText(options.serviceId) <==> r == Some(ClientServiceIdRequired))
    ensures r.Some? ==> r.value in {SelectFile, ClientInvalidFileType, ClientFileTooLarge, TokenMissing,
                                    ClientServiceIdRequired}
  {
    if file.None? then Some(SelectFile)
    else if file.value.mime !in ClientAllowedTypes then Some(ClientInvalidFileType)
    else if file.value.size > ClientMaxSize then Some(ClientFileTooLarge)
    else if !TruthyText(token) then Some(TokenMissing)
    else if options.imageType == ServiceImage && !TruthyText(options.serviceId) then Some(ClientServiceIdRequired)
    else None
  }

  /** The form: the image, the type, and the service id only when it is truthy. */
  function BuildRequest(file: ImageFile, options: UploadOptions, token: string): UploadRequest
  {
    UploadRequest(BearerPrefix + token,
                  UploadForm(Some(KindName(options.imageType)), Some(file),
                             if TruthyText(options.serviceId) then options.serviceId else None))
  }

  /** From the response on: the result, the toast shown, and the argument
      `onSuccess` receives when it is called. */
  function Settle(answer: FetchOutcome, hasOnSuccess: bool): (r: (HookResult, Toast, Option<Option<string>>))
    ensures r.0.Returned? <==> answer.Answered? && answer.ok
    ensures r.0.Returned? ==> && r.0.imageUrl == answer.imageUrl && r.1 == SuccessToast(UploadSucceeded)
                              && (r.2.Some? <==> hasOnSuccess)
                              && (r.2.Some? ==> r.2.value == answer.imageUrl)
    ensures r.0.Failed? ==> r.1 == ErrorToast(r.0.message) && r.2.None?
    ensures !r.0.Declined?
  {
    match answer
    case Rejected(message) => (Failed(message), ErrorToast(message), None)
    case Answered(ok, error, imageUrl) =>
      if !ok then
        var message := if TruthyText(error) then error.value else UploadFallback;
        (Failed(message), ErrorToast(message), None)
      else (Returned(imageUrl), SuccessToast(UploadSucceeded), if hasOnSuccess then Some(imageUrl) else None)
  }

  /** The server's response as the hook sees it: `ok` for a 2xx status. */
  function AsFetched(r: Reply<UploadReply>): FetchOutcome
  {
    match r
    case Ok(status, body) => Answered(200 <= status < 300, None, Some(body.imageUrl))
    case Err(status, error) => Answered(200 <= status < 300, Some(error), None)
  }

  /** The hook and the route share their limits and their messages. */
  lemma ClientLimitsMatchServer()
    ensures ClientAllowedTypes == AllowedTypes && ClientMaxSize == MaxSize
    ensures ClientInvalidFileType == InvalidFileType && ClientFileTooLarge == FileTooLarge
    ensures ClientServiceIdRequired == ServiceIdRequired
  {
  }

  /** A request the hook sends passes every check of the route before the
      upload, once its token is accepted and its user exists, and a service
      image request carries the service id the route needs after it. */
  lemma SentRequestPassesServerChecks(file: Option<ImageFile>, options: UploadOptions, token: Option<string>,
                                      jwtVerify: string -> JwtOutcome, isObjectId: string -> bool, users: seq<User>)
    requires Precheck(file, options, token).None?
    requires jwtVerify(token.value).Decoded?
    requires isObjectId(jwtVerify(token.value).claims.userId)
    requires FindUserById(users, jwtVerify(token.value).claims.userId).Some?
    ensures var req := BuildRequest(file.value, options, token.value);
            var p := CheckUpload(Some(req.authorization), jwtVerify, isObjectId, Some(req.form), users);
            && p.Go? && p.kind == options.imageType && p.file == file.value
            && (options.imageType == ServiceImage ==> TruthyText(req.form.serviceId))
  {
    var req := BuildRequest(file.value, options, token.value);
    ExtractTokenRoundTrip(token.value);
    assert ParseKind(KindName(options.imageType)) == Some(options.imageType);
  }

  /** Every refusal of the route reaches the user as the route's own message. */
  lemma ServerErrorSurfaces(r: Reply<UploadReply>, hasOnSuccess: bool)
    requires r.Err? && r.error != "" && r.status >= 400
    ensures Settle(AsFetched(r), hasOnSuccess).0 == Failed(r.error)
    ensures Settle(AsFetched(r), hasOnSuccess).1 == ErrorToast(r.error)
  {
  }

  /** A 200 from the route hands its image URL to the caller and to `onSuccess`. */
  lemma ServerUrlReachesCaller(r: Reply<UploadReply>)
    requires r.Ok? && r.status == 200
    ensures Settle(AsFetched(r), true).0 == Returned(Some(r.body.imageUrl))
    ensures Settle(AsFetched(r), true).2 == Some(Some(r.body.imageUrl))
  {
  }

  /** The hook's state. */
  class ImageUploader {
    var isUploading: bool
    var progress: nat

    /** `useState(false)` and `useState(0)`. */
    constructor()
      ensures !isUploading && progress == 0
    {
      isUploading := false;
      progress := 0;
    }

    /** Up to the `fetch`: a refused file shows its toast and changes nothing;
        an accepted one turns `isUploading` on and resets the progress. */
    method Begin(file: Option<ImageFile>, options: UploadOptions, token: Option<string>)
      returns (req: Option<UploadRequest>, toast: Option<Toast>)
      modifies this
      ensures Precheck(file, options, token).Some? ==>
                && req.None? && toast == Some(ErrorToast(Precheck(file, options, token).value))
                && isUploading == old(isUploading) && progress == old(progress)
      ensures Precheck(file, options, token).None? ==>
                && req == Some(BuildRequest(file.value, options, token.value)) && toast.None?
                && isUploading && progress == 0
    {
      var refusal := Precheck(file, options, token);
      if refusal.Some? {
        req := None;
        toast := Some(ErrorToast(refusal.value));
        return;
      }
      isUploading := true;
      progress := 0;
      req := Some(BuildRequest(file.value, options, token.value));
      toast := None;
    }

    /** From the response on: progress reaches 100 on success, and the
        `finally` block then clears both fields whatever happened. */
    method Finish(answer: FetchOutcome, hasOnSuccess: bool)
      returns (result: HookResult, toast: Toast, reported: Option<Option<string>>)
      modifies this
      ensures (result, toast, reported) == Settle(answer, hasOnSuccess)
      ensures !isUploading && progress == 0
    {
      var settled := Settle(answer, hasOnSuccess);
      if settled.0.Returned? {
        progress := 100;
      }
      result, toast, reported := settled.0, settled.1, settled.2;
      isUploading := false;
      progress := 0;
    }

    /** The whole call, with `server` standing for the round trip to the route. */
    method UploadImage(file: Option<ImageFile>, options: UploadOptions, token: Option<string>,
                       server: UploadRequest -> FetchOutcome)
      returns (result: HookResult, toast: Toast, reported: Option<Option<string>>)
      modifies this
      ensures Precheck(file, options, token).Some? ==>
                && result == Declined && toast == ErrorToast(Precheck(file, options, token).value)
                && reported.None? && isUploading == old(isUploading) && progress == old(progress)
      ensures Precheck(file, options, token).None? ==>
                && (result, toast, reported)
                   == Settle(server(BuildRequest(file.value, options, token.value)), options.hasOnSuccess)
                && !isUploading && progress == 0
    {
      var req, early := Begin(file, options, token);
      if req.None? {
        result, toast, reported := Declined, early.value, None;
        return;
      }
      result, toast, reported := Finish(server(req.value), options.hasOnSuccess);
    }
  }
}
