/** `/api/bookings` (src/app/api/bookings/route.ts): `GET` lists the caller's
    bookings, as customer or as taskio, newest first, with their references
    resolved; `POST` runs a fixed chain of checks on a booking request and
    saves a `pending` booking for the caller only when every check passes. */
module BookingsRoute {
  import opened Common
  import opened Text
  import opened UserModel
  import opened ServiceModel
  import opened BookingModel
  import opened Auth
  import opened Database

  const InvalidUserIdFormat: string := "Invalid user ID format"
  const ServiceNotFound: string := "Service not found"
  const ServiceNotAvailable: string := "Service is not available for booking"
  const InvalidTaskio: string := "Invalid taskio for this service"
  const PriceOutOfRange: string := "Price is outside the allowed range"
  const TotalIncorrect: string := "Total price calculation is incorrect"

  /** The tolerance on `totalPrice - price * quantity`. */
  const TotalTolerance: real := 0.01

  // ---------------------------------------------------------------- references

  /** `populate('serviceId', 'title category serviceImage')`. */
  datatype ServiceSummary = ServiceSummary(id: string, title: string, category: string, serviceImage: Option<string>)

  /** `populate('taskioId' | 'customerId', 'name profilePicture')`. */
  datatype PersonSummary = PersonSummary(id: string, name: string, profilePicture: Option<string>)

  function ServiceRef(services: seq<Service>, id: string): (r: Option<ServiceSummary>)
    ensures r.Some? <==> FindServiceById(services, id).Some?
  {
    match FindServiceById(services, id)
    case None => None
    case Some(s) => Some(ServiceSummary(s.id, s.title, s.category, s.serviceImage))
  }

  function PersonRef(users: seq<User>, id: string): (r: Option<PersonSummary>)
    ensures r.Some? <==> FindUserById(users, id).Some?
  {
    match FindUserById(users, id)
    case None => None
    case Some(u) => Some(PersonSummary(u.id, u.name, u.profilePicture))
  }

  /** A booking after the three `populate` calls: a reference whose document is
      gone comes back `null`. */
  datatype Populated = Populated(booking: Booking, service: Option<ServiceSummary>,
                                 taskio: Option<PersonSummary>, customer: Option<PersonSummary>)

  function Populate(b: Booking, users: seq<User>, services: seq<Service>): Populated
  {
    Populated(b, ServiceRef(services, b.serviceId), PersonRef(users, b.taskioId), PersonRef(users, b.customerId))
  }

  predicate Resolved(p: Populated)
  {
    p.service.Some? && p.taskio.Some? && p.customer.Some?
  }

  /** One element of the `GET` answer: the booking's fields with its three references inlined. */
  datatype BookingView = BookingView(
    id: string,
    service: ServiceSummary,
    taskio: PersonSummary,
    customer: PersonSummary,
    price: real,
    quantity: real,
    totalPrice: real,
    bookingDate: string,
    bookingTime: string,
    address: string,
    city: string,
    state: string,
    zipCode: string,
    specialInstructions: Option<string>,
    contactPhone: string,
    contactEmail: string,
    status: Status,
    createdAt: int)

  function ViewOf(p: Populated): (v: BookingView)
    requires Resolved(p)
    ensures v.id == p.booking.id && v.createdAt == p.booking.createdAt && v.status == p.booking.status
  {
    var b := p.booking;
    BookingView(b.id, p.service.value, p.taskio.value, p.customer.value, b.price, b.quantity, b.totalPrice,
                b.bookingDate, b.bookingTime, b.address, b.city, b.state, b.zipCode, b.specialInstructions,
                b.contactPhone, b.contactEmail, b.status, b.createdAt)
  }

  /** The `map` that returns `null` for a booking with an unresolved reference,
      followed by `filter(booking => booking !== null)`. */
  function Transform(ps: seq<Populated>): (r: seq<BookingView>)
    ensures |r| <= |ps|
    ensures forall v :: v in r <==> exists p :: p in ps && Resolved(p) && v == ViewOf(p)
  {
    if ps == [] then []
    else
      var rest := Transform(ps[1..]);
      assert forall p :: p in ps[1..] ==> p in ps;
      assert forall p :: p in ps && p != ps[0] ==> p in ps[1..];
      if Resolved(ps[0]) then [ViewOf(ps[0])] + rest else rest
  }

  /** The transform works booking by booking: transforming a concatenation is
      concatenating the transforms, so the survivors keep their relative order
      and each one stays where its booking was. */
  lemma {:induction false} TransformConcat(a: seq<Populated>, b: seq<Populated>)
    ensures Transform(a + b) == Transform(a) + Transform(b)
  {
    if a == [] {
      assert a + b == b;
    } else {
      assert (a + b)[0] == a[0];
      assert (a + b)[1..] == a[1..] + b;
      TransformConcat(a[1..], b);
    }
  }

  /** Dropping unresolved bookings keeps the survivors in their order. */
  lemma {:induction false} TransformKeepsOrder(ps: seq<Populated>)
    requires NewestFirst(ps, (p: Populated) => p.booking.createdAt)
    ensures NewestFirst(Transform(ps), (v: BookingView) => v.createdAt)
  {
    if ps != [] {
      var rest := Transform(ps[1..]);
      assert NewestFirst(ps[1..], (p: Populated) => p.booking.createdAt) by {
        forall i, j | 0 <= i < j < |ps[1..]| ensures ps[1..][i].booking.createdAt >= ps[1..][j].booking.createdAt {
          assert ps[1..][i] == ps[i + 1] && ps[1..][j] == ps[j + 1];
        }
      }
      TransformKeepsOrder(ps[1..]);
      if Resolved(ps[0]) {
        var r := [ViewOf(ps[0])] + rest;
        forall j | 0 <= j < |rest| ensures ps[0].booking.createdAt >= rest[j].createdAt {
          assert rest[j] in rest;
          var p :| p in ps[1..] && Resolved(p) && rest[j] == ViewOf(p);
          var k :| 0 <= k < |ps[1..]| && ps[1..][k] == p;
          assert ps[k + 1] == p;
        }
        forall i, j | 0 <= i < j < |r| ensures r[i].createdAt >= r[j].createdAt {
          if i > 0 {
            assert r[i] == rest[i - 1] && r[j] == rest[j - 1];
          } else {
            assert r[j] == rest[j - 1];
          }
        }
      }
    }
  }

  // ------------------------------------------------------------------- GET

  /** The query `GET` builds: `taskioId` for `?role=taskio`, `customerId` for
      any other value or none. */
  predicate Selected(b: Booking, userId: string, role: Option<string>)
  {
    if role == Some("taskio") then b.taskioId == userId else b.customerId == userId
  }

  function PopulateAll(bs: seq<Booking>, users: seq<User>, services: seq<Service>): (r: seq<Populated>)
    ensures |r| == |bs| && forall i :: 0 <= i < |bs| ==> r[i] == Populate(bs[i], users, services)
  {
    seq(|bs|, i requires 0 <= i < |bs| => Populate(bs[i], users, services))
  }

  /** `Booking.find(query).populate(...).sort({ createdAt: -1 })`, then the transform. */
  function ListBookings(bookings: seq<Booking>, users: seq<User>, services: seq<Service>,
                        userId: string, role: Option<string>): seq<BookingView>
  {
    var selected := Filter(bookings, (b: Booking) => Selected(b, userId, role));
    var sorted := SortNewestFirst(selected, (b: Booking) => b.createdAt);
    Transform(PopulateAll(sorted, users, services))
  }

  /** The answer holds exactly the selected bookings whose three references
      resolve, each with its stored field values. */
  lemma ListBookingsMembers(bookings: seq<Booking>, users: seq<User>, services: seq<Service>,
                            userId: string, role: Option<string>, v: BookingView)
    ensures v in ListBookings(bookings, users, services, userId, role) <==>
              exists b :: b in bookings && Selected(b, userId, role)
                          && Resolved(Populate(b, users, services)) && v == ViewOf(Populate(b, users, services))
  {
    var selected := Filter(bookings, (b: Booking) => Selected(b, userId, role));
    var sorted := SortNewestFirst(selected, (b: Booking) => b.createdAt);
    var ps := PopulateAll(sorted, users, services);
    forall b ensures b in sorted <==> b in selected {
      SortKeepsElements(selected, (b: Booking) => b.createdAt, b);
    }
    forall p | p in ps ensures exists b :: b in sorted && p == Populate(b, users, services) {
      var i :| 0 <= i < |ps| && ps[i] == p;
      assert sorted[i] in sorted;
    }
    forall b | b in sorted ensures Populate(b, users, services) in ps {
      var i :| 0 <= i < |sorted| && sorted[i] == b;
      assert ps[i] == Populate(b, users, services);
    }
  }

  /** The answer is newest first. */
  lemma ListBookingsNewestFirst(bookings: seq<Booking>, users: seq<User>, services: seq<Service>,
                                userId: string, role: Option<string>)
    ensures NewestFirst(ListBookings(bookings, users, services, userId, role), (v: BookingView) => v.createdAt)
  {
    var selected := Filter(bookings, (b: Booking) => Selected(b, userId, role));
    var sorted := SortNewestFirst(selected, (b: Booking) => b.createdAt);
    var ps := PopulateAll(sorted, users, services);
    assert NewestFirst(ps, (p: Populated) => p.booking.createdAt) by {
      forall i, j | 0 <= i < j < |ps| ensures ps[i].booking.createdAt >= ps[j].booking.createdAt {
        assert ps[i].booking == sorted[i] && ps[j].booking == sorted[j];
      }
    }
    TransformKeepsOrder(ps);
  }

  /** With every reference resolvable, nothing is dropped: the answer has one
      entry per selected booking. */
  lemma {:induction false} TransformAllResolved(ps: seq<Populated>)
    requires forall i :: 0 <= i < |ps| ==> Resolved(ps[i])
    ensures |Transform(ps)| == |ps|
  {
    if ps != [] {
      TransformAllResolved(ps[1..]);
    }
  }

  /** `GET /api/bookings?role=...`. */
  function GetBookings(authorization: Option<string>, jwtVerify: string -> JwtOutcome, role: Option<string>,
                       isObjectId: string -> bool,
                       bookings: seq<Booking>, users: seq<User>, services: seq<Service>): (r: Reply<seq<BookingView>>)
    ensures Authenticate(authorization, jwtVerify).Denied? ==> r == Err(401, Authenticate(authorization, jwtVerify).error)
    ensures r == Err(400, InvalidUserIdFormat) <==>
              Authenticate(authorization, jwtVerify).Granted? && !isObjectId(Authenticate(authorization, jwtVerify).claims.userId)
    ensures r.Ok? ==> && r.status == 200 && Authenticate(authorization, jwtVerify).Granted?
                      && r.body == ListBookings(bookings, users, services, Authenticate(authorization, jwtVerify).claims.userId, role)
    ensures Authenticate(authorization, jwtVerify).Granted? && isObjectId(Authenticate(authorization, jwtVerify).claims.userId) ==>
              r == Ok(200, ListBookings(bookings, users, services, Authenticate(authorization, jwtVerify).claims.userId, role))
  {
    match Authenticate(authorization, jwtVerify)
    case Denied(status, error) => Err(status, error)
    case Granted(claims) =>
      if !isObjectId(claims.userId) then Err(400, InvalidUserIdFormat)
      else Ok(200, ListBookings(bookings, users, services, claims.userId, role))
  }

  // ------------------------------------------------------------------ POST

  /** The thirteen fields the handler tests with `!bookingData[field]`. */
  datatype Field =
    | ServiceIdField | TaskioIdField | PriceField | QuantityField | TotalPriceField
    | BookingDateField | BookingTimeField | AddressField | CityField | StateField | ZipCodeField
    | ContactPhoneField | ContactEmailField

  /** The field's JSON name, which the error message repeats. */
  function FieldName(f: Field): string
  {
    match f
    case ServiceIdField => "serviceId"
    case TaskioIdField => "taskioId"
    case PriceField => "price"
    case QuantityField => "quantity"
    case TotalPriceField => "totalPrice"
    case BookingDateField => "bookingDate"
    case BookingTimeField => "bookingTime"
    case AddressField => "address"
    case CityField => "city"
    case StateField => "state"
    case ZipCodeField => "zipCode"
    case ContactPhoneField => "contactPhone"
    case ContactEmailField => "contactEmail"
  }

  /** The order the handler checks them in. */
  const RequiredFields: seq<Field> := [ServiceIdField, TaskioIdField, PriceField, QuantityField, TotalPriceField,
                                       BookingDateField, BookingTimeField, AddressField, CityField, StateField,
                                       ZipCodeField, ContactPhoneField, ContactEmailField]

  /** `bookingData[field]` is truthy. */
  predicate Truthy(body: BookingInput, f: Field)
  {
    match f
    case ServiceIdField => TruthyText(body.serviceId)
    case TaskioIdField => TruthyText(body.taskioId)
    case PriceField => TruthyNumber(body.price)
    case QuantityField => TruthyNumber(body.quantity)
    case TotalPriceField => TruthyNumber(body.totalPrice)
    case BookingDateField => TruthyText(body.bookingDate)
    case BookingTimeField => TruthyText(body.bookingTime)
    case AddressField => TruthyText(body.address)
    case CityField => TruthyText(body.city)
    case StateField => TruthyText(body.state)
    case ZipCodeField => TruthyText(body.zipCode)
    case ContactPhoneField => TruthyText(body.contactPhone)
    case ContactEmailField => TruthyText(body.contactEmail)
  }

  /** Every field is truthy exactly when the loop finds none missing. */
  lemma NoneMissing(body: BookingInput)
    requires FirstMissing(RequiredFields, body, Truthy).None?
    ensures && TruthyText(body.serviceId) && TruthyText(body.taskioId) && TruthyNumber(body.price)
            && TruthyNumber(body.quantity) && TruthyNumber(body.totalPrice)
  {
    assert Truthy(body, RequiredFields[0]) && Truthy(body, RequiredFields[1]) && Truthy(body, RequiredFields[2]);
    assert Truthy(body, RequiredFields[3]) && Truthy(body, RequiredFields[4]);
  }

  function Abs(x: real): real
  {
    if x < 0.0 then -x else x
  }

  /** Where the check chain ends: an early return, or the service the booking is for. */
  datatype Check = Reject(status: nat, error: string) | Accept(service: Service)

  /** The fields the service checks read. */
  predicate FieldsPresent(body: BookingInput)
  {
    body.serviceId.Some? && body.taskioId.Some? && body.price.Some? && body.quantity.Some? && body.totalPrice.Some?
  }

  /** The checks after the field loop, in the handler's order. A `serviceId`
      that is not an ObjectId makes `findById` throw, which the outer `catch`
      answers 500. */
  function CheckService(body: BookingInput, services: seq<Service>, isObjectId: string -> bool): (r: Check)
    requires FieldsPresent(body)
    ensures !isObjectId(body.serviceId.value) ==> r == Reject(500, InternalError)
    ensures isObjectId(body.serviceId.value) && FindServiceById(services, body.serviceId.value).None? ==>
              r == Reject(404, ServiceNotFound)
    ensures r.Accept? <==> && isObjectId(body.serviceId.value) && FindServiceById(services, body.serviceId.value).Some?
                           && var s := FindServiceById(services, body.serviceId.value).value;
                              && s.isActive && s.taskioId == body.taskioId.value
                              && s.priceRange.min <= body.price.value <= s.priceRange.max
                              && Abs(body.totalPrice.value - body.price.value * body.quantity.value) <= TotalTolerance
    ensures r.Accept? ==> r.service == FindServiceById(services, body.serviceId.value).value
  {
    if !isObjectId(body.serviceId.value) then Reject(500, InternalError)
    else match FindServiceById(services, body.serviceId.value)
      case None => Reject(404, ServiceNotFound)
      case Some(s) =>
        if !s.isActive then Reject(400, ServiceNotAvailable)
        else if s.taskioId != body.taskioId.value then Reject(400, InvalidTaskio)
        else if body.price.value < s.priceRange.min || body.price.value > s.priceRange.max then Reject(400, PriceOutOfRange)
        else if Abs(body.totalPrice.value - body.price.value * body.quantity.value) > TotalTolerance then Reject(400, TotalIncorrect)
        else Accept(s)
  }

  /** The precedence among the service checks: each answers only when all the
      ones before it passed. */
  lemma CheckPrecedence(body: BookingInput, services: seq<Service>, isObjectId: string -> bool)
    requires FieldsPresent(body) && isObjectId(body.serviceId.value)
    requires FindServiceById(services, body.serviceId.value).Some?
    ensures var s := FindServiceById(services, body.serviceId.value).value;
            var r := CheckService(body, services, isObjectId);
            && (!s.isActive ==> r == Reject(400, ServiceNotAvailable))
            && (s.isActive && s.taskioId != body.taskioId.value ==> r == Reject(400, InvalidTaskio))
            && (s.isActive && s.taskioId == body.taskioId.value
                && (body.price.value < s.priceRange.min || body.price.value > s.priceRange.max)
                ==> r == Reject(400, PriceOutOfRange))
            && (s.isActive && s.taskioId == body.taskioId.value
                && s.priceRange.min <= body.price.value <= s.priceRange.max
                && Abs(body.totalPrice.value - body.price.value * body.quantity.value) > TotalTolerance
                ==> r == Reject(400, TotalIncorrect))
  {
  }

  /** The whole chain after authentication: the field loop, then the service checks. */
  function CheckRequest(body: BookingInput, services: seq<Service>, isObjectId: string -> bool): (r: Check)
    ensures FirstMissing(RequiredFields, body, Truthy).Some? ==>
              r == Reject(400, Required(FieldName(FirstMissing(RequiredFields, body, Truthy).value)))
    ensures FirstMissing(RequiredFields, body, Truthy).None? ==>
              FieldsPresent(body) && r == CheckService(body, services, isObjectId)
  {
    var missing := FirstMissing(RequiredFields, body, Truthy);
    if missing.Some? then Reject(400, Required(FieldName(missing.value)))
    else
      NoneMissing(body);
      CheckService(body, services, isObjectId)
  }

  /** A zero price passes every earlier field and is reported missing: the
      falsy test cannot tell 0 from absent. */
  lemma ZeroPriceIsMissing(body: BookingInput, services: seq<Service>, isObjectId: string -> bool)
    requires TruthyText(body.serviceId) && TruthyText(body.taskioId) && body.price == Some(0.0)
    ensures CheckRequest(body, services, isObjectId) == Reject(400, "price is required")
  {
    var f := RequiredFields;
    assert f[0] == ServiceIdField && f[1..][0] == TaskioIdField && f[1..][1..][0] == PriceField;
    assert FirstMissing(f[1..][1..], body, Truthy) == Some(PriceField);
    assert FirstMissing(f[1..], body, Truthy) == Some(PriceField);
    assert FirstMissing(f, body, Truthy) == Some(PriceField);
    assert Required(FieldName(PriceField)) == "price is required";
  }

  /** `{ ...bookingData, customerId: decoded.userId, status: 'pending' }`. */
  function NewBookingInput(body: BookingInput, customerId: string): BookingInput
  {
    body.(customerId := Some(customerId), status := Some(StatusName(Pending)))
  }

  /** Whatever the body says about them, a created booking belongs to the
      caller and is pending. */
  lemma CreatedBookingIsCallersAndPending(id: string, body: BookingInput, customerId: string, now: int,
                                         isObjectId: string -> bool, isDate: string -> bool)
    requires CastBooking(id, NewBookingInput(body, customerId), now, isObjectId, isDate).Some?
    ensures var b := CastBooking(id, NewBookingInput(body, customerId), now, isObjectId, isDate).value;
            b.customerId == customerId && b.status == Pending
  {
  }

  /** How `POST` ends: an error response, or the booking it saves. */
  datatype PostResult = Rejected(status: nat, error: string) | Saved(booking: Booking)

  /** The decision `POST` reaches. A body that is not JSON makes `request.json()`
      throw, and a booking the schema refuses makes `save()` throw: both are 500. */
  function PostDecision(authorization: Option<string>, jwtVerify: string -> JwtOutcome, body: Option<BookingInput>,
                        newId: string, now: int, isObjectId: string -> bool, isDate: string -> bool,
                        services: seq<Service>): (d: PostResult)
    ensures Authenticate(authorization, jwtVerify).Denied? ==>
              d == Rejected(401, Authenticate(authorization, jwtVerify).error)
    ensures d.Rejected? ==> d.status in {400, 401, 404, 500}
  {
    match Authenticate(authorization, jwtVerify)
    case Denied(status, error) => Rejected(status, error)
    case Granted(claims) =>
      if body.None? then Rejected(500, InternalError)
      else match CheckRequest(body.value, services, isObjectId)
        case Reject(status, error) => Rejected(status, error)
        case Accept(_) =>
          match CastBooking(newId, NewBookingInput(body.value, claims.userId), now, isObjectId, isDate)
          case None => Rejected(500, InternalError)
          case Some(b) => Saved(b)
  }

  /** After authentication, each step of `POST` in turn: a body that is not
      JSON is a 500, a failed check answers with its own status and message,
      and a booking that passed every check is saved exactly as the schema
      casts it, or is a 500 when the cast refuses it. */
  lemma PostDecisionSteps(authorization: Option<string>, jwtVerify: string -> JwtOutcome, body: Option<BookingInput>,
                          newId: string, now: int, isObjectId: string -> bool, isDate: string -> bool,
                          services: seq<Service>)
    requires Authenticate(authorization, jwtVerify).Granted?
    ensures var d := PostDecision(authorization, jwtVerify, body, newId, now, isObjectId, isDate, services);
            body.None? ==> d == Rejected(500, InternalError)
    ensures var d := PostDecision(authorization, jwtVerify, body, newId, now, isObjectId, isDate, services);
            body.Some? && CheckRequest(body.value, services, isObjectId).Reject? ==>
              d == Rejected(CheckRequest(body.value, services, isObjectId).status,
                            CheckRequest(body.value, services, isObjectId).error)
    ensures var d := PostDecision(authorization, jwtVerify, body, newId, now, isObjectId, isDate, services);
            body.Some? && CheckRequest(body.value, services, isObjectId).Accept? ==>
              var cast := CastBooking(newId, NewBookingInput(body.value, Authenticate(authorization, jwtVerify).claims.userId),
                                      now, isObjectId, isDate);
              && (cast.None? ==> d == Rejected(500, InternalError))
              && (cast.Some? ==> d == Saved(cast.value))
  {
  }

  /** A booking is saved only when the caller is authenticated and every check
      passed; it is then the caller's, pending, valid, with the id and time it
      was given. */
  lemma PostSavesOnlyWhenAllChecksPass(authorization: Option<string>, jwtVerify: string -> JwtOutcome,
                                       body: Option<BookingInput>, newId: string, now: int,
                                       isObjectId: string -> bool, isDate: string -> bool, services: seq<Service>)
    requires PostDecision(authorization, jwtVerify, body, newId, now, isObjectId, isDate, services).Saved?
    ensures var b := PostDecision(authorization, jwtVerify, body, newId, now, isObjectId, isDate, services).booking;
            && Authenticate(authorization, jwtVerify).Granted? && body.Some?
            && CheckRequest(body.value, services, isObjectId).Accept?
            && b.customerId == Authenticate(authorization, jwtVerify).claims.userId
            && b.status == Pending
            && ValidBooking(b, isObjectId)
            && b.id == newId && b.createdAt == now
  {
    var claims := Authenticate(authorization, jwtVerify).claims;
    CreatedBookingIsCallersAndPending(newId, body.value, claims.userId, now, isObjectId, isDate);
  }

  /** The booking `POST` saves passes the schema. */
  lemma SavedBookingIsValid(authorization: Option<string>, jwtVerify: string -> JwtOutcome,
                            body: Option<BookingInput>, newId: string, now: int,
                            isObjectId: string -> bool, isDate: string -> bool, services: seq<Service>)
    requires PostDecision(authorization, jwtVerify, body, newId, now, isObjectId, isDate, services).Saved?
    ensures ValidBooking(PostDecision(authorization, jwtVerify, body, newId, now, isObjectId, isDate, services).booking, isObjectId)
  {
    PostSavesOnlyWhenAllChecksPass(authorization, jwtVerify, body, newId, now, isObjectId, isDate, services);
  }

  /** The response for a decision: the error, or 201 with the saved booking populated. */
  function PostReply(d: PostResult, users: seq<User>, services: seq<Service>): Reply<Populated>
  {
    match d
    case Rejected(status, error) => Err(status, error)
    case Saved(b) => Ok(201, Populate(b, users, services))
  }

  /** `POST /api/bookings`: the decision, then `booking.save()` only when it is
      a booking, then the populated answer. */
  method PostBooking(store: Store, authorization: Option<string>, jwtVerify: string -> JwtOutcome,
                     body: Option<BookingInput>, newId: string, now: int, isObjectId: string -> bool,
                     isDate: string -> bool)
    returns (r: Reply<Populated>)
    modifies store
    ensures var d := PostDecision(authorization, jwtVerify, body, newId, now, isObjectId, isDate, old(store.services));
            && r == PostReply(d, old(store.users), old(store.services))
            && (d.Rejected? ==> store.bookings == old(store.bookings))
            && (d.Saved? ==> store.bookings == old(store.bookings) + [d.booking])
    ensures store.users == old(store.users) && store.services == old(store.services) && store.hosted == old(store.hosted)
    ensures old(store.Valid(isObjectId)) ==> store.Valid(isObjectId)
  {
    var d := PostDecision(authorization, jwtVerify, body, newId, now, isObjectId, isDate, store.services);
    match d
    case Rejected(status, error) =>
      r := Err(status, error);
    case Saved(b) =>
      SavedBookingIsValid(authorization, jwtVerify, body, newId, now, isObjectId, isDate, store.services);
      if BookingsValid(store.bookings, isObjectId) {
        AppendValidBooking(store.bookings, b, isObjectId);
      }
      store.bookings := store.bookings + [b];
      r := Ok(201, Populate(b, store.users, store.services));
  }
}
