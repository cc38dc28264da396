/** `POST /api/user/upload-image` (src/app/api/user/upload-image/route.ts):
    relays an image to the image host and records its URL on the caller's
    profile picture, header image, or one of the caller's services. The
    checks on the request run before the upload; the service id and the
    ownership of the service are checked only after the image has been
    hosted, so a request refused at that point has already uploaded. */
module UploadImageRoute {
  import opened Common
  import opened UserModel
  import opened ServiceModel
  import opened Auth
  import opened Database

  const UserMissing: string := "User not found"
  const TypeAndFileRequired: string := "Image type and file are required"
  const InvalidImageType: string := "Invalid image type"
  const InvalidFileType: string := "Invalid file type. Only JPEG, PNG, and WebP are allowed"
  const FileTooLarge: string := "File size too large. Maximum size is 5MB"
  const ServiceIdRequired: string := "Service ID is required for service images"
  const ServiceNotOwned: string := "Service not found or access denied"
  const ServiceImageUploaded: string := "Service image uploaded successfully"
  const ImageUploaded: string := "Image uploaded successfully"
  /** This handler's `catch` answers with its own message. */
  const UploadFailed: string := "Failed to upload image"

  const AllowedTypes: seq<string> := ["image/jpeg", "image/jpg", "image/png", "image/webp"]
  /** 5 MiB. */
  const MaxSize: nat := 5 * 1024 * 1024

  /** The three `imageType` values. */
  datatype ImageKind = ProfilePicture | HeaderImage | ServiceImage

  function KindName(k: ImageKind): string
  {
    match k
    case ProfilePicture => "profilePicture"
    case HeaderImage => "headerImage"
    case ServiceImage => "serviceImage"
  }

  /** `['profilePicture', 'headerImage', 'serviceImage'].includes(imageType)`. */
  function ParseKind(s: string): (r: Option<ImageKind>)
    ensures r.Some? <==> s == "profilePicture" || s == "headerImage" || s == "serviceImage"
    ensures r.Some? ==> KindName(r.value) == s
  {
    if s == "profilePicture" then Some(ProfilePicture)
    else if s == "headerImage" then Some(HeaderImage)
    else if s == "serviceImage" then Some(ServiceImage)
    else None
  }

  /** The uploaded `File`: its MIME type and its size in bytes. Its content
      goes to the host unread. */
  datatype ImageFile = ImageFile(mime: string, size: nat)

  /** The multipart form fields; an absent field is `None`. */
  datatype UploadForm = UploadForm(imageType: Option<string>, image: Option<ImageFile>, serviceId: Option<string>)

  /** The image host's folder for a kind: `taskio/${imageType}`. */
  function Folder(k: ImageKind): string
  {
    "taskio/" + KindName(k)
  }

  /** Where the checks before the upload end: an error response, or the
      caller, the kind and the file to upload. */
  datatype PreUpload = Stop(status: nat, error: string) | Go(claims: Claims, kind: ImageKind, file: ImageFile)

  /** The checks before the upload, in the handler's order. A caller id that
      is not an ObjectId makes `findById` throw; an unreadable form makes
      `formData()` throw: both are 500. */
  function CheckUpload(authorization: Option<string>, jwtVerify: string -> JwtOutcome, isObjectId: string -> bool,
                       form: Option<UploadForm>, users: seq<User>): (p: PreUpload)
    ensures Authenticate(authorization, jwtVerify).Denied? ==> p == Stop(401, Authenticate(authorization, jwtVerify).error)
    ensures p.Stop? ==> p.status in {400, 401, 404, 500}
    ensures p.Go? <==> && Authenticate(authorization, jwtVerify).Granted?
                       && isObjectId(Authenticate(authorization, jwtVerify).claims.userId)
                       && FindUserById(users, Authenticate(authorization, jwtVerify).claims.userId).Some?
                       && form.Some? && form.value.imageType.Some? && form.value.image.Some?
                       && ParseKind(form.value.imageType.value).Some?
                       && form.value.image.value.mime in AllowedTypes
                       && form.value.image.value.size <= MaxSize
    ensures p.Go? ==> && p.claims == Authenticate(authorization, jwtVerify).claims
                      && Some(p.kind) == ParseKind(form.value.imageType.value)
                      && p.file == form.value.image.value
    ensures Authenticate(authorization, jwtVerify).Granted? ==>
              var id := Authenticate(authorization, jwtVerify).claims.userId;
              && (!isObjectId(id) ==> p == Stop(500, UploadFailed))
              && (isObjectId(id) && FindUserById(users, id).None? ==> p == Stop(404, UserMissing))
              && (isObjectId(id) && FindUserById(users, id).Some? && form.None? ==> p == Stop(500, UploadFailed))
  {
    match Authenticate(authorization, jwtVerify)
    case Denied(status, error) => Stop(status, error)
    case Granted(claims) =>
      if !isObjectId(claims.userId) then Stop(500, UploadFailed)
      else if FindUserById(users, claims.userId).None? then Stop(404, UserMissing)
      else if form.None? then Stop(500, UploadFailed)
      else
        var f := form.value;
        if !TruthyText(f.imageType) || f.image.None? then Stop(400, TypeAndFileRequired)
        else match ParseKind(f.imageType.value)
          case None => Stop(400, InvalidImageType)
          case Some(kind) =>
            if f.image.value.mime !in AllowedTypes then Stop(400, InvalidFileType)
            else if f.image.value.size > MaxSize then Stop(400, FileTooLarge)
            else Go(claims, kind, f.image.value)
  }

  /** The order of the checks on the form: each answers only when every one
      before it passed. */
  lemma CheckUploadOrder(authorization: Option<string>, jwtVerify: string -> JwtOutcome, isObjectId: string -> bool,
                         f: UploadForm, users: seq<User>)
    requires Authenticate(authorization, jwtVerify).Granted?
    requires isObjectId(Authenticate(authorization, jwtVerify).claims.userId)
    requires FindUserById(users, Authenticate(authorization, jwtVerify).claims.userId).Some?
    ensures var p := CheckUpload(authorization, jwtVerify, isObjectId, Some(f), users);
            && (!TruthyText(f.imageType) || f.image.None? <==> p == Stop(400, TypeAndFileRequired))
            && (TruthyText(f.imageType) && f.image.Some? ==>
                  (ParseKind(f.imageType.value).None? <==> p == Stop(400, InvalidImageType)))
            && (TruthyText(f.imageType) && f.image.Some? && ParseKind(f.imageType.value).Some? ==>
                  (f.image.value.mime !in AllowedTypes <==> p == Stop(400, InvalidFileType)))
            && (TruthyText(f.imageType) && f.image.Some? && ParseKind(f.imageType.value).Some?
                && f.image.value.mime in AllowedTypes ==>
                  (f.image.value.size > MaxSize <==> p == Stop(400, FileTooLarge)))
  {
  }

  /** An image of exactly 5 MiB is accepted; one byte more is refused. */
  lemma SizeBound(authorization: Option<string>, jwtVerify: string -> JwtOutcome, isObjectId: string -> bool,
                  kind: ImageKind, mime: string, serviceId: Option<string>, users: seq<User>)
    requires Authenticate(authorization, jwtVerify).Granted?
    requires isObjectId(Authenticate(authorization, jwtVerify).claims.userId)
    requires FindUserById(users, Authenticate(authorization, jwtVerify).claims.userId).Some?
    requires mime in AllowedTypes
    ensures CheckUpload(authorization, jwtVerify, isObjectId,
                        Some(UploadForm(Some(KindName(kind)), Some(ImageFile(mime, 5242880)), serviceId)), users).Go?
    ensures CheckUpload(authorization, jwtVerify, isObjectId,
                        Some(UploadForm(Some(KindName(kind)), Some(ImageFile(mime, 5242881)), serviceId)), users)
            == Stop(400, FileTooLarge)
  {
    assert ParseKind(KindName(kind)) == Some(kind);
  }

  /** `Service.findOne({ _id: serviceId, taskioId })`. */
  function FindOwnedService(services: seq<Service>, id: string, taskioId: string): (r: Option<Service>)
    ensures r.Some? ==> r.value in services && r.value.id == id && r.value.taskioId == taskioId
    ensures r.None? <==> forall s :: s in services ==> s.id != id || s.taskioId != taskioId
  {
    if services == [] then None
    else if services[0].id == id && services[0].taskioId == taskioId then Some(services[0])
    else FindOwnedService(services[1..], id, taskioId)
  }

  /** `Service.findByIdAndUpdate(id, { serviceImage: url }, { new: true })`. */
  function SetServiceImage(services: seq<Service>, id: string, url: string): (r: (seq<Service>, Option<Service>))
    ensures |r.0| == |services|
    ensures r.1.None? <==> FindServiceById(services, id).None?
    ensures r.1.Some? ==> r.1.value == FindServiceById(services, id).value.(serviceImage := Some(url))
    ensures forall i :: 0 <= i < |services| ==>
              r.0[i] == services[i] || (services[i].id == id && r.0[i] == services[i].(serviceImage := Some(url)))
  {
    if services == [] then ([], None)
    else if services[0].id == id then ([services[0].(serviceImage := Some(url))] + services[1..], Some(services[0].(serviceImage := Some(url))))
    else
      var rest := SetServiceImage(services[1..], id, url);
      ([services[0]] + rest.0, rest.1)
  }

  /** Sets the one user field that matches the kind. */
  function SetUserImage(kind: ImageKind, url: string): User -> User
  {
    (u: User) => if kind == ProfilePicture then u.(profilePicture := Some(url)) else u.(headerImage := Some(url))
  }

  /** The 200 bodies: the updated service, or the updated user without its password. */
  datatype UploadReply =
    | ServiceImageSaved(message: string, service: Option<Service>, imageUrl: string)
    | UserImageSaved(message: string, user: Option<UserView>, imageUrl: string)

  /** What follows a successful upload of `url`: the response, and the users
      and services afterwards. */
  function Attach(claims: Claims, kind: ImageKind, url: string, serviceId: Option<string>, isObjectId: string -> bool,
                  users: seq<User>, services: seq<Service>): (r: (Reply<UploadReply>, seq<User>, seq<Service>))
    ensures kind == ServiceImage ==> r.1 == users
    ensures kind == ServiceImage && !TruthyText(serviceId) ==> r == (Err(400, ServiceIdRequired), users, services)
    ensures kind == ServiceImage && TruthyText(serviceId) && isObjectId(serviceId.value) ==>
              (FindOwnedService(services, serviceId.value, claims.userId).None? <==>
                 r == (Err(404, ServiceNotOwned), users, services))
    ensures kind != ServiceImage ==> r.2 == services && r.1 == UpdateUserById(users, claims.userId, SetUserImage(kind, url)).0
    ensures kind == ServiceImage && TruthyText(serviceId) && !isObjectId(serviceId.value) ==>
              r == (Err(500, UploadFailed), users, services)
    ensures kind == ServiceImage && TruthyText(serviceId) && isObjectId(serviceId.value)
            && FindOwnedService(services, serviceId.value, claims.userId).Some? ==>
              && FindServiceById(services, serviceId.value).Some?
              && r.0 == Ok(200, ServiceImageSaved(ServiceImageUploaded,
                                                  Some(FindServiceById(services, serviceId.value).value.(serviceImage := Some(url))),
                                                  url))
              && r.2 == SetServiceImage(services, serviceId.value, url).0
    ensures kind != ServiceImage ==>
              && r.0.Ok? && r.0.status == 200 && r.0.body.UserImageSaved?
              && r.0.body.message == ImageUploaded && r.0.body.imageUrl == url
              && (r.0.body.user.Some? <==> FindUserById(users, claims.userId).Some?)
              && (r.0.body.user.Some? ==>
                    r.0.body.user.value == View(SetUserImage(kind, url)(FindUserById(users, claims.userId).value)))
    ensures r.0.Err? ==> r.1 == users && r.2 == services
  {
    if kind == ServiceImage then
      if !TruthyText(serviceId) then (Err(400, ServiceIdRequired), users, services)
      else if !isObjectId(serviceId.value) then (Err(500, UploadFailed), users, services)
      else if FindOwnedService(services, serviceId.value, claims.userId).None? then
        (Err(404, ServiceNotOwned), users, services)
      else
        var (services', updated) := SetServiceImage(services, serviceId.value, url);
        (Ok(200, ServiceImageSaved(ServiceImageUploaded, updated, url)), users, services')
    else
      var (users', updated) := UpdateUserById(users, claims.userId, SetUserImage(kind, url));
      var view := if updated.Some? then Some(View(updated.value)) else None;
      (Ok(200, UserImageSaved(ImageUploaded, view, url)), users', services)
  }

  /** A service image lands on the caller's own service and changes nothing
      else of it; a profile or header image sets that one field of the caller. */
  lemma AttachChangesOneField(claims: Claims, kind: ImageKind, url: string, serviceId: Option<string>,
                              isObjectId: string -> bool, users: seq<User>, services: seq<Service>)
    requires Attach(claims, kind, url, serviceId, isObjectId, users, services).0.Ok?
    ensures var r := Attach(claims, kind, url, serviceId, isObjectId, users, services);
            && |r.1| == |users| && |r.2| == |services|
            && (kind == ServiceImage ==>
                  && FindOwnedService(services, serviceId.value, claims.userId).Some?
                  && forall i :: 0 <= i < |services| ==>
                       r.2[i] == services[i] || (services[i].id == serviceId.value && r.2[i] == services[i].(serviceImage := Some(url))))
            && (kind == ProfilePicture ==> forall i :: 0 <= i < |users| ==>
                  r.1[i] == users[i] || (users[i].id == claims.userId && r.1[i] == users[i].(profilePicture := Some(url))))
            && (kind == HeaderImage ==> forall i :: 0 <= i < |users| ==>
                  r.1[i] == users[i] || (users[i].id == claims.userId && r.1[i] == users[i].(headerImage := Some(url))))
  {
  }

  /** Setting an image keeps every user and every service valid. */
  lemma AttachKeepsValid(claims: Claims, kind: ImageKind, url: string, serviceId: Option<string>,
                         isObjectId: string -> bool, users: seq<User>, services: seq<Service>)
    ensures var r := Attach(claims, kind, url, serviceId, isObjectId, users, services);
            UsersValid(users) && ServicesValid(services, isObjectId) ==> UsersValid(r.1) && ServicesValid(r.2, isObjectId)
  {
    var r := Attach(claims, kind, url, serviceId, isObjectId, users, services);
    if r.0.Ok? && UsersValid(users) && ServicesValid(services, isObjectId) {
      AttachChangesOneField(claims, kind, url, serviceId, isObjectId, users, services);
      forall i | 0 <= i < |users| ensures ValidUser(r.1[i]) {
        assert ValidUser(users[i]);
      }
      forall i | 0 <= i < |services| ensures ValidService(r.2[i], isObjectId) {
        assert ValidService(services[i], isObjectId);
      }
    }
  }

  /** The URL the image host answers for a request that passed the checks. */
  function HostedUrl(p: PreUpload, host: (ImageFile, string) -> Option<string>): (u: Option<string>)
    ensures u.Some? ==> p.Go? && u == host(p.file, Folder(p.kind))
    ensures p.Go? ==> u == host(p.file, Folder(p.kind))
  {
    if p.Go? then host(p.file, Folder(p.kind)) else None
  }

  /** The handler. `host` is the image host's upload of a file to a folder,
      answering the URL or failing (`None`, which the `catch` answers 500). */
  method UploadImage(store: Store, authorization: Option<string>, jwtVerify: string -> JwtOutcome,
                     isObjectId: string -> bool, form: Option<UploadForm>,
                     host: (ImageFile, string) -> Option<string>)
    returns (r: Reply<UploadReply>)
    modifies store
    ensures var p := CheckUpload(authorization, jwtVerify, isObjectId, form, old(store.users));
            p.Stop? ==> r == Err(p.status, p.error)
    ensures var p := CheckUpload(authorization, jwtVerify, isObjectId, form, old(store.users));
            p.Go? && host(p.file, Folder(p.kind)).None? ==> r == Err(500, UploadFailed)
    ensures HostedUrl(CheckUpload(authorization, jwtVerify, isObjectId, form, old(store.users)), host).None? ==>
              && store.hosted == old(store.hosted)
              && store.users == old(store.users) && store.services == old(store.services)
    ensures var p := CheckUpload(authorization, jwtVerify, isObjectId, form, old(store.users));
            HostedUrl(p, host).Some? ==>
              store.hosted == old(store.hosted) + [HostedImage(Folder(p.kind), HostedUrl(p, host).value)]
    ensures var p := CheckUpload(authorization, jwtVerify, isObjectId, form, old(store.users));
            HostedUrl(p, host).Some? ==>
              (r, store.users, store.services)
              == Attach(p.claims, p.kind, HostedUrl(p, host).value, form.value.serviceId, isObjectId,
                        old(store.users), old(store.services))
    ensures store.bookings == old(store.bookings)
    ensures old(store.Valid(isObjectId)) ==> store.Valid(isObjectId)
  {
    var p := CheckUpload(authorization, jwtVerify, isObjectId, form, store.users);
    var url := HostedUrl(p, host);
    if url.None? {
      r := if p.Stop? then Err(p.status, p.error) else Err(500, UploadFailed);
      return;
    }
    var result := Attach(p.claims, p.kind, url.value, form.value.serviceId, isObjectId, store.users, store.services);
    AttachKeepsValid(p.claims, p.kind, url.value, form.value.serviceId, isObjectId, store.users, store.services);
    store.hosted, store.users, store.services := store.hosted + [HostedImage(Folder(p.kind), url.value)], result.1, result.2;
    r := result.0;
  }

  /** A service image request refused for its service id, or for a service the
      caller does not own, has already put the image on the host. */
  lemma RefusedServiceImageWasHosted(claims: Claims, url: string, serviceId: Option<string>,
                                     isObjectId: string -> bool, users: seq<User>, services: seq<Service>)
    requires !TruthyText(serviceId)
             || (isObjectId(serviceId.value) && FindOwnedService(services, serviceId.value, claims.userId).None?)
    ensures Attach(claims, ServiceImage, url, serviceId, isObjectId, users, services).0.Err?
    ensures Attach(claims, ServiceImage, url, serviceId, isObjectId, users, services).0.status in {400, 404}
  {
  }
}
