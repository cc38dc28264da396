/** `/api/services` (src/app/api/services/route.ts): a taskio's own catalogue.
    `GET` lists the caller's services newest first; `POST` checks the offer
    (required fields, a price range whose minimum is not above its maximum)
    and saves it under the caller's id, whatever owner the body names. Both
    answer 401 before the role check and 403 to anyone but a taskio. */
module ServicesRoute {
  import opened Common
  import opened ServiceModel
  import opened Auth
  import opened Database

  const OnlyTaskiosManage: string := "Only taskios can manage services"
  const OnlyTaskiosCreate: string := "Only taskios can create services"
  const MinAboveMax: string := "Minimum price cannot be greater than maximum price"
  const ServicesFetched: string := "Services fetched successfully"
  const ServiceCreated: string := "Service created successfully"

  /** The role the token must carry. */
  const TaskioRole: string := "taskio"

  // ------------------------------------------------------------------- GET

  /** `Service.find({ taskioId }).sort({ createdAt: -1 })`. */
  function OwnedServices(services: seq<Service>, taskioId: string): seq<Service>
  {
    SortNewestFirst(Filter(services, (s: Service) => s.taskioId == taskioId), (s: Service) => s.createdAt)
  }

  /** The list holds exactly the caller's services, newest first. */
  lemma OwnedServicesMembers(services: seq<Service>, taskioId: string, s: Service)
    ensures s in OwnedServices(services, taskioId) <==> s in services && s.taskioId == taskioId
    ensures NewestFirst(OwnedServices(services, taskioId), (s: Service) => s.createdAt)
  {
    SortKeepsElements(Filter(services, (s: Service) => s.taskioId == taskioId), (s: Service) => s.createdAt, s);
  }

  /** `GET /api/services`. A caller id that is not an ObjectId makes the query's
      cast throw, which the `catch` answers 500. */
  function ServicesGet(authorization: Option<string>, jwtVerify: string -> JwtOutcome, isObjectId: string -> bool,
                       services: seq<Service>): (r: Reply<seq<Service>>)
    ensures Authenticate(authorization, jwtVerify).Denied? ==> r == Err(401, Authenticate(authorization, jwtVerify).error)
    ensures r == Err(403, OnlyTaskiosManage) <==>
              Authenticate(authorization, jwtVerify).Granted? && Authenticate(authorization, jwtVerify).claims.role != TaskioRole
    ensures r.Ok? ==> && r.status == 200
                      && Authenticate(authorization, jwtVerify).Granted?
                      && Authenticate(authorization, jwtVerify).claims.role == TaskioRole
                      && r.body == OwnedServices(services, Authenticate(authorization, jwtVerify).claims.userId)
    ensures Authenticate(authorization, jwtVerify).Granted? && Authenticate(authorization, jwtVerify).claims.role == TaskioRole ==>
              && (!isObjectId(Authenticate(authorization, jwtVerify).claims.userId) ==> r == Err(500, InternalError))
              && (isObjectId(Authenticate(authorization, jwtVerify).claims.userId) ==>
                    r == Ok(200, OwnedServices(services, Authenticate(authorization, jwtVerify).claims.userId)))
  {
    match Authenticate(authorization, jwtVerify)
    case Denied(status, error) => Err(status, error)
    case Granted(claims) =>
      if claims.role != TaskioRole then Err(403, OnlyTaskiosManage)
      else if !isObjectId(claims.userId) then Err(500, InternalError)
      else Ok(200, OwnedServices(services, claims.userId))
  }

  // ------------------------------------------------------------------ POST

  /** The five fields the handler tests with `!serviceData[field]`. */
  datatype Field = TitleField | CategoryField | DescriptionField | PricingModelField | PriceRangeField

  function FieldName(f: Field): string
  {
    match f
    case TitleField => "title"
    case CategoryField => "category"
    case DescriptionField => "description"
    case PricingModelField => "pricingModel"
    case PriceRangeField => "priceRange"
  }

  const RequiredFields: seq<Field> := [TitleField, CategoryField, DescriptionField, PricingModelField, PriceRangeField]

  /** `serviceData[field]` is truthy; `priceRange` is an object, truthy whenever present. */
  predicate Truthy(body: ServiceInput, f: Field)
  {
    match f
    case TitleField => TruthyText(body.title)
    case CategoryField => TruthyText(body.category)
    case DescriptionField => TruthyText(body.description)
    case PricingModelField => TruthyText(body.pricingModel)
    case PriceRangeField => body.priceRange.Some?
  }

  /** `serviceData.priceRange.min > serviceData.priceRange.max`; a comparison
      with an absent bound is false. */
  predicate InvertedRange(p: PriceRangeInput)
  {
    p.min.Some? && p.max.Some? && p.min.value > p.max.value
  }

  /** The record `new Service({ ...serviceData, taskioId: decoded.userId })` builds. */
  function WithOwner(body: ServiceInput, taskioId: string): ServiceInput
  {
    body.(taskioId := Some(taskioId))
  }

  /** How `POST` ends: an error response, or the service it saves. */
  datatype CreateResult = Refused(status: nat, error: string) | Created(service: Service)

  /** The decision `POST` reaches. A body that is not JSON makes `request.json()`
      throw, and a service the schema refuses makes `save()` throw: both are 500. */
  function CreateDecision(authorization: Option<string>, jwtVerify: string -> JwtOutcome, body: Option<ServiceInput>,
                          newId: string, now: int, isObjectId: string -> bool): (d: CreateResult)
    ensures Authenticate(authorization, jwtVerify).Denied? ==>
              d == Refused(401, Authenticate(authorization, jwtVerify).error)
    ensures d == Refused(403, OnlyTaskiosCreate) <==>
              Authenticate(authorization, jwtVerify).Granted? && Authenticate(authorization, jwtVerify).claims.role != TaskioRole
    ensures d.Refused? ==> d.status in {400, 401, 403, 500}
    ensures && Authenticate(authorization, jwtVerify).Granted?
            && Authenticate(authorization, jwtVerify).claims.role == TaskioRole
            && body.Some? && FirstMissing(RequiredFields, body.value, Truthy).Some?
            ==> d == Refused(400, Required(FieldName(FirstMissing(RequiredFields, body.value, Truthy).value)))
    ensures (Authenticate(authorization, jwtVerify).Granted? && Authenticate(authorization, jwtVerify).claims.role == TaskioRole
             && body.None?) ==> d == Refused(500, InternalError)
  {
    match Authenticate(authorization, jwtVerify)
    case Denied(status, error) => Refused(status, error)
    case Granted(claims) =>
      if claims.role != TaskioRole then Refused(403, OnlyTaskiosCreate)
      else if body.None? then Refused(500, InternalError)
      else
        var missing := FirstMissing(RequiredFields, body.value, Truthy);
        if missing.Some? then Refused(400, Required(FieldName(missing.value)))
        else if InvertedRange(body.value.priceRange.value) then Refused(400, MinAboveMax)
        else match CastService(newId, claims.userId, WithOwner(body.value, claims.userId), now, isObjectId)
          case None => Refused(500, InternalError)
          case Some(s) => Created(s)
  }

  /** With every field present, an inverted range is refused and anything else
      goes on to the schema (`min == max` is accepted): the service is created
      exactly as the schema casts it, owned by the caller, or the cast's
      refusal is a 500. */
  lemma RangeCheck(authorization: Option<string>, jwtVerify: string -> JwtOutcome, body: ServiceInput,
                   newId: string, now: int, isObjectId: string -> bool)
    requires Authenticate(authorization, jwtVerify).Granted?
    requires Authenticate(authorization, jwtVerify).claims.role == TaskioRole
    requires FirstMissing(RequiredFields, body, Truthy).None?
    ensures body.priceRange.Some?
    ensures var d := CreateDecision(authorization, jwtVerify, Some(body), newId, now, isObjectId);
            && (InvertedRange(body.priceRange.value) ==> d == Refused(400, MinAboveMax))
            && (!InvertedRange(body.priceRange.value) ==> d != Refused(400, MinAboveMax))
    ensures var d := CreateDecision(authorization, jwtVerify, Some(body), newId, now, isObjectId);
            var userId := Authenticate(authorization, jwtVerify).claims.userId;
            var cast := CastService(newId, userId, WithOwner(body, userId), now, isObjectId);
            !InvertedRange(body.priceRange.value) ==>
              && (cast.None? ==> d == Refused(500, InternalError))
              && (cast.Some? ==> d == Created(cast.value))
    ensures var d := CreateDecision(authorization, jwtVerify, Some(body), newId, now, isObjectId);
            !InvertedRange(body.priceRange.value) && !isObjectId(Authenticate(authorization, jwtVerify).claims.userId) ==>
              d == Refused(500, InternalError)
  {
    assert Truthy(body, RequiredFields[4]);
  }

  /** An equal minimum and maximum pass the range check. */
  lemma EqualBoundsAccepted(authorization: Option<string>, jwtVerify: string -> JwtOutcome, body: ServiceInput,
                            newId: string, now: int, isObjectId: string -> bool)
    requires Authenticate(authorization, jwtVerify).Granted?
    requires Authenticate(authorization, jwtVerify).claims.role == TaskioRole
    requires FirstMissing(RequiredFields, body, Truthy).None?
    requires body.priceRange.Some? && body.priceRange.value.min == body.priceRange.value.max
    ensures CreateDecision(authorization, jwtVerify, Some(body), newId, now, isObjectId) != Refused(400, MinAboveMax)
  {
    RangeCheck(authorization, jwtVerify, body, newId, now, isObjectId);
  }

  /** The owner a body names makes no difference: the created service is the
      caller's, and it passed the schema. */
  lemma CreatedServiceIsCallers(authorization: Option<string>, jwtVerify: string -> JwtOutcome, body: ServiceInput,
                                newId: string, now: int, owner: Option<string>, isObjectId: string -> bool)
    ensures CreateDecision(authorization, jwtVerify, Some(body.(taskioId := owner)), newId, now, isObjectId)
         == CreateDecision(authorization, jwtVerify, Some(body), newId, now, isObjectId)
    ensures var d := CreateDecision(authorization, jwtVerify, Some(body), newId, now, isObjectId);
            d.Created? ==> && Authenticate(authorization, jwtVerify).Granted?
                           && d.service.taskioId == Authenticate(authorization, jwtVerify).claims.userId
                           && d.service.id == newId && d.service.createdAt == now
                           && ValidService(d.service, isObjectId)
                           && !(d.service.priceRange.min > d.service.priceRange.max)
  {
    var body' := body.(taskioId := owner);
    assert WithOwner(body', "") == WithOwner(body, "") by {
      assert body'.(taskioId := Some("")) == body.(taskioId := Some(""));
    }
    forall f: Field ensures Truthy(body', f) == Truthy(body, f) {
    }
    assert FirstMissing(RequiredFields, body', Truthy) == FirstMissing(RequiredFields, body, Truthy) by {
      FirstMissingSameTruth(RequiredFields, body', body);
    }
    match Authenticate(authorization, jwtVerify)
    case Denied(_, _) =>
    case Granted(claims) =>
      assert WithOwner(body', claims.userId) == WithOwner(body, claims.userId);
  }

  lemma {:induction false} FirstMissingSameTruth(fields: seq<Field>, a: ServiceInput, b: ServiceInput)
    requires forall f: Field :: Truthy(a, f) == Truthy(b, f)
    ensures FirstMissing(fields, a, Truthy) == FirstMissing(fields, b, Truthy)
  {
    if fields != [] {
      FirstMissingSameTruth(fields[1..], a, b);
    }
  }

  /** `await service.save()`: a created service joins the collection, and
      nothing else changes. */
  method PostService(store: Store, authorization: Option<string>, jwtVerify: string -> JwtOutcome,
                     body: Option<ServiceInput>, newId: string, now: int, isObjectId: string -> bool)
    returns (r: Reply<Service>)
    modifies store
    ensures var d := CreateDecision(authorization, jwtVerify, body, newId, now, isObjectId);
            && (d.Refused? ==> r == Err(d.status, d.error) && store.services == old(store.services))
            && (d.Created? ==> r == Ok(201, d.service) && store.services == old(store.services) + [d.service])
    ensures store.users == old(store.users) && store.bookings == old(store.bookings) && store.hosted == old(store.hosted)
    ensures old(store.Valid(isObjectId)) ==> store.Valid(isObjectId)
  {
    var d := CreateDecision(authorization, jwtVerify, body, newId, now, isObjectId);
    match d
    case Refused(status, error) =>
      r := Err(status, error);
    case Created(s) =>
      CreatedServiceIsCallers(authorization, jwtVerify, body.value, newId, now, body.value.taskioId, isObjectId);
      store.services := store.services + [s];
      r := Ok(201, s);
  }
}
