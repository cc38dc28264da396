/** The Service document (src/models/Service.ts): the offer a taskio publishes,
    with its enums, nested sections, the schema's casting (trim on strings and
    string arrays, `required`, `maxlength`, `min: 0`, `enum`) and its defaults. */
module ServiceModel {
  import opened Common
  import opened Text

  datatype PricingModel = Hourly | Fixed | Package
  datatype Urgency = Low | Medium | High
  datatype Weekday = Monday | Tuesday | Wednesday | Thursday | Friday | Saturday | Sunday
  datatype TimeOfDay = Morning | Afternoon | Evening | Night
  /** `location.type`: `'in-person' | 'remote' | 'both'`. */
  datatype LocationType = InPerson | Remote | InPersonOrRemote
  /** `booking.type`. */
  datatype BookingType = Instant | Approval | Consultation
  /** `additionalInfo.serviceType`: `'individual' | 'group' | 'both'`. */
  datatype ServiceType = Individual | Group | IndividualOrGroup

  function PricingModelName(m: PricingModel): string
  {
    match m
    case Hourly => "hourly"
    case Fixed => "fixed"
    case Package => "package"
  }

  function ParsePricingModel(s: string): (r: Option<PricingModel>)
    ensures r.Some? <==> s == "hourly" || s == "fixed" || s == "package"
    ensures r.Some? ==> PricingModelName(r.value) == s
  {
    if s == "hourly" then Some(Hourly) else if s == "fixed" then Some(Fixed)
    else if s == "package" then Some(Package) else None
  }

  function UrgencyName(u: Urgency): string
  {
    match u
    case Low => "low"
    case Medium => "medium"
    case High => "high"
  }

  function ParseUrgency(s: string): (r: Option<Urgency>)
    ensures r.Some? <==> s == "low" || s == "medium" || s == "high"
    ensures r.Some? ==> UrgencyName(r.value) == s
  {
    if s == "low" then Some(Low) else if s == "medium" then Some(Medium)
    else if s == "high" then Some(High) else None
  }

  function WeekdayName(d: Weekday): string
  {
    match d
    case Monday => "monday"
    case Tuesday => "tuesday"
    case Wednesday => "wednesday"
    case Thursday => "thursday"
    case Friday => "friday"
    case Saturday => "saturday"
    case Sunday => "sunday"
  }

  function ParseWeekday(s: string): (r: Option<Weekday>)
    ensures r.Some? <==> s in ["monday", "tuesday", "wednesday", "thursday", "friday", "saturday", "sunday"]
    ensures r.Some? ==> WeekdayName(r.value) == s
  {
    if s == "monday" then Some(Monday) else if s == "tuesday" then Some(Tuesday)
    else if s == "wednesday" then Some(Wednesday) else if s == "thursday" then Some(Thursday)
    else if s == "friday" then Some(Friday) else if s == "saturday" then Some(Saturday)
    else if s == "sunday" then Some(Sunday) else None
  }

  function TimeOfDayName(t: TimeOfDay): string
  {
    match t
    case Morning => "morning"
    case Afternoon => "afternoon"
    case Evening => "evening"
    case Night => "night"
  }

  function ParseTimeOfDay(s: string): (r: Option<TimeOfDay>)
    ensures r.Some? <==> s in ["morning", "afternoon", "evening", "night"]
    ensures r.Some? ==> TimeOfDayName(r.value) == s
  {
    if s == "morning" then Some(Morning) else if s == "afternoon" then Some(Afternoon)
    else if s == "evening" then Some(Evening) else if s == "night" then Some(Night) else None
  }

  function LocationTypeName(t: LocationType): string
  {
    match t
    case InPerson => "in-person"
    case Remote => "remote"
    case InPersonOrRemote => "both"
  }

  function ParseLocationType(s: string): (r: Option<LocationType>)
    ensures r.Some? <==> s == "in-person" || s == "remote" || s == "both"
    ensures r.Some? ==> LocationTypeName(r.value) == s
  {
    if s == "in-person" then Some(InPerson) else if s == "remote" then Some(Remote)
    else if s == "both" then Some(InPersonOrRemote) else None
  }

  function BookingTypeName(t: BookingType): string
  {
    match t
    case Instant => "instant"
    case Approval => "approval"
    case Consultation => "consultation"
  }

  function ParseBookingType(s: string): (r: Option<BookingType>)
    ensures r.Some? <==> s == "instant" || s == "approval" || s == "consultation"
    ensures r.Some? ==> BookingTypeName(r.value) == s
  {
    if s == "instant" then Some(Instant) else if s == "approval" then Some(Approval)
    else if s == "consultation" then Some(Consultation) else None
  }

  function ServiceTypeName(t: ServiceType): string
  {
    match t
    case Individual => "individual"
    case Group => "group"
    case IndividualOrGroup => "both"
  }

  function ParseServiceType(s: string): (r: Option<ServiceType>)
    ensures r.Some? <==> s == "individual" || s == "group" || s == "both"
    ensures r.Some? ==> ServiceTypeName(r.value) == s
  {
    if s == "individual" then Some(Individual) else if s == "group" then Some(Group)
    else if s == "both" then Some(IndividualOrGroup) else None
  }

  /** Every enum value's stored name parses back to it: with the parsers'
      own contracts, name and value are in one-to-one correspondence. */
  lemma EnumNamesParseBack(m: PricingModel, u: Urgency, d: Weekday, t: TimeOfDay,
                           l: LocationType, b: BookingType, k: ServiceType)
    ensures ParsePricingModel(PricingModelName(m)) == Some(m)
    ensures ParseUrgency(UrgencyName(u)) == Some(u)
    ensures ParseWeekday(WeekdayName(d)) == Some(d)
    ensures ParseTimeOfDay(TimeOfDayName(t)) == Some(t)
    ensures ParseLocationType(LocationTypeName(l)) == Some(l)
    ensures ParseBookingType(BookingTypeName(b)) == Some(b)
    ensures ParseServiceType(ServiceTypeName(k)) == Some(k)
  {
  }

  datatype PriceRange = PriceRange(min: real, max: real, currency: string)
  datatype Availability = Availability(days: seq<Weekday>, times: seq<TimeOfDay>, urgency: Urgency)
  datatype Location = Location(kind: LocationType, serviceRadius: Option<real>, serviceArea: Option<string>)
  datatype Experience = Experience(skills: seq<string>, certifications: seq<string>, yearsOfExperience: real)
  datatype Portfolio = Portfolio(images: seq<string>, links: seq<string>)
  datatype BookingPolicy = BookingPolicy(kind: BookingType, requirements: seq<string>, cancellationPolicy: string)
  datatype AdditionalInfo = AdditionalInfo(estimatedDuration: string, equipmentProvided: seq<string>, serviceType: ServiceType)

  /** A stored service. `serviceImage` is written by the image upload route; the
      schema declares no such path (see the README). */
  datatype Service = Service(
    id: string,
    taskioId: string,
    title: string,
    category: string,
    tags: seq<string>,
    description: string,
    pricingModel: PricingModel,
    priceRange: PriceRange,
    isNegotiable: bool,
    availability: Availability,
    location: Location,
    experience: Experience,
    portfolio: Portfolio,
    booking: BookingPolicy,
    additionalInfo: AdditionalInfo,
    serviceImage: Option<string>,
    isActive: bool,
    createdAt: int)

  const TitleMaxLength: nat := 100
  const DescriptionMaxLength: nat := 1000
  const DefaultCurrency: string := "USD"

  predicate AllTrimmed(ss: seq<string>)
  {
    forall i :: 0 <= i < |ss| ==> Trimmed(ss[i])
  }

  /** A required, trimmed string: present and non-empty. */
  predicate RequiredText(s: string)
  {
    |s| > 0 && Trimmed(s)
  }

  /** What the schema guarantees of every stored service. `isObjectId` says
      whether mongoose can cast a text to an ObjectId. */
  predicate ValidService(s: Service, isObjectId: string -> bool)
  {
    && isObjectId(s.taskioId)
    && RequiredText(s.title) && |s.title| <= TitleMaxLength
    && RequiredText(s.category)
    && AllTrimmed(s.tags)
    && RequiredText(s.description) && |s.description| <= DescriptionMaxLength
    && s.priceRange.min >= 0.0 && s.priceRange.max >= 0.0
    && (s.location.serviceRadius.Some? ==> s.location.serviceRadius.value >= 0.0)
    && (s.location.serviceArea.Some? ==> Trimmed(s.location.serviceArea.value))
    && AllTrimmed(s.experience.skills) && AllTrimmed(s.experience.certifications)
    && s.experience.yearsOfExperience >= 0.0
    && AllTrimmed(s.portfolio.images) && AllTrimmed(s.portfolio.links)
    && AllTrimmed(s.booking.requirements) && RequiredText(s.booking.cancellationPolicy)
    && RequiredText(s.additionalInfo.estimatedDuration) && AllTrimmed(s.additionalInfo.equipmentProvided)
  }

  // The request body as handed to `new Service({...})`: every field may be absent.

  datatype PriceRangeInput = PriceRangeInput(min: Option<real>, max: Option<real>, currency: Option<string>)
  datatype AvailabilityInput = AvailabilityInput(days: seq<string>, times: seq<string>, urgency: Option<string>)
  datatype LocationInput = LocationInput(kind: Option<string>, serviceRadius: Option<real>, serviceArea: Option<string>)
  datatype ExperienceInput = ExperienceInput(skills: seq<string>, certifications: seq<string>, yearsOfExperience: Option<real>)
  datatype BookingPolicyInput = BookingPolicyInput(kind: Option<string>, requirements: seq<string>, cancellationPolicy: Option<string>)
  datatype AdditionalInfoInput = AdditionalInfoInput(estimatedDuration: Option<string>, equipmentProvided: seq<string>, serviceType: Option<string>)

  datatype ServiceInput = ServiceInput(
    taskioId: Option<string>,
    title: Option<string>,
    category: Option<string>,
    tags: seq<string>,
    description: Option<string>,
    pricingModel: Option<string>,
    priceRange: Option<PriceRangeInput>,
    isNegotiable: Option<bool>,
    availability: Option<AvailabilityInput>,
    location: Option<LocationInput>,
    experience: Option<ExperienceInput>,
    portfolio: Option<Portfolio>,
    booking: Option<BookingPolicyInput>,
    additionalInfo: Option<AdditionalInfoInput>,
    isActive: Option<bool>)

  /** The `trim: true` setter applied to each element of a string array. */
  function TrimAll(ss: seq<string>): (r: seq<string>)
    ensures |r| == |ss| && AllTrimmed(r)
    ensures forall i :: 0 <= i < |ss| ==> r[i] == Trim(ss[i])
  {
    seq(|ss|, i requires 0 <= i < |ss| => Trim(ss[i]))
  }

  /** Casting an array against an `enum`: every element must parse. */
  function ParseAll<E>(ss: seq<string>, parse: string -> Option<E>): (r: Option<seq<E>>)
    ensures r.Some? <==> forall i :: 0 <= i < |ss| ==> parse(ss[i]).Some?
    ensures r.Some? ==> |r.value| == |ss| && forall i :: 0 <= i < |ss| ==> parse(ss[i]) == Some(r.value[i])
  {
    if ss == [] then Some([])
    else match (parse(ss[0]), ParseAll(ss[1..], parse))
      case (Some(e), Some(rest)) => Some([e] + rest)
      case _ => None
  }

  /** A `required`, `trim`med string with an optional `maxlength`. */
  function CastRequiredText(s: Option<string>, maxLength: Option<nat>): (r: Option<string>)
    ensures r.Some? <==> s.Some? && |Trim(s.value)| > 0 && (maxLength.Some? ==> |Trim(s.value)| <= maxLength.value)
    ensures r.Some? ==> r.value == Trim(s.value) && RequiredText(r.value)
  {
    if s.None? then None
    else
      var t := Trim(s.value);
      if |t| == 0 || (maxLength.Some? && |t| > maxLength.value) then None else Some(t)
  }

  /** `priceRange`: both bounds required and non-negative; currency defaults to USD.
      Nothing relates `min` to `max`. */
  function CastPriceRange(p: Option<PriceRangeInput>): (r: Option<PriceRange>)
    ensures r.Some? <==> && p.Some? && p.value.min.Some? && p.value.max.Some?
                         && p.value.min.value >= 0.0 && p.value.max.value >= 0.0
    ensures r.Some? ==> && r.value.min == p.value.min.value && r.value.max == p.value.max.value
                        && r.value.currency == (if p.value.currency.Some? then p.value.currency.value else DefaultCurrency)
  {
    if p.None? || p.value.min.None? || p.value.max.None? then None
    else if p.value.min.value < 0.0 || p.value.max.value < 0.0 then None
    else
      var currency := if p.value.currency.Some? then p.value.currency.value else DefaultCurrency;
      Some(PriceRange(p.value.min.value, p.value.max.value, currency))
  }

  /** `availability`: weekday and time-of-day enums on each element; urgency defaults to medium. */
  function CastAvailability(a: Option<AvailabilityInput>): (r: Option<Availability>)
    ensures a.None? ==> r == Some(Availability([], [], Medium))
    ensures a.Some? ==> (r.Some? <==> && ParseAll(a.value.days, ParseWeekday).Some?
                                      && ParseAll(a.value.times, ParseTimeOfDay).Some?
                                      && (a.value.urgency.None? || ParseUrgency(a.value.urgency.value).Some?))
    ensures a.Some? && r.Some? ==> && r.value.days == ParseAll(a.value.days, ParseWeekday).value
                                   && r.value.times == ParseAll(a.value.times, ParseTimeOfDay).value
    ensures a.Some? && r.Some? ==> && (a.value.urgency.None? ==> r.value.urgency == Medium)
                                   && (a.value.urgency.Some? ==> Some(r.value.urgency) == ParseUrgency(a.value.urgency.value))
  {
    if a.None? then Some(Availability([], [], Medium))
    else
      var days := ParseAll(a.value.days, ParseWeekday);
      var times := ParseAll(a.value.times, ParseTimeOfDay);
      var urgency := if a.value.urgency.None? then Some(Medium) else ParseUrgency(a.value.urgency.value);
      if days.None? || times.None? || urgency.None? then None
      else Some(Availability(days.value, times.value, urgency.value))
  }

  /** `location`: the type is required and one of the enum; the radius, when given, is non-negative. */
  function CastLocation(l: Option<LocationInput>): (r: Option<Location>)
    ensures r.Some? <==> && l.Some? && l.value.kind.Some? && ParseLocationType(l.value.kind.value).Some?
                         && (l.value.serviceRadius.Some? ==> l.value.serviceRadius.value >= 0.0)
    ensures r.Some? ==> && Some(r.value.kind) == ParseLocationType(l.value.kind.value)
                        && r.value.serviceRadius == l.value.serviceRadius
                        && r.value.serviceArea == (if l.value.serviceArea.Some? then Some(Trim(l.value.serviceArea.value)) else None)
                        && (r.value.serviceArea.Some? ==> Trimmed(r.value.serviceArea.value))
  {
    if l.None? || l.value.kind.None? then None
    else
      var kind := ParseLocationType(l.value.kind.value);
      if kind.None? || (l.value.serviceRadius.Some? && l.value.serviceRadius.value < 0.0) then None
      else
        var area := if l.value.serviceArea.Some? then Some(Trim(l.value.serviceArea.value)) else None;
        Some(Location(kind.value, l.value.serviceRadius, area))
  }

  /** `experience`: trimmed lists; years of experience default to 0 and are non-negative. */
  function CastExperience(e: Option<ExperienceInput>): (r: Option<Experience>)
    ensures e.None? ==> r == Some(Experience([], [], 0.0))
    ensures e.Some? ==> (r.Some? <==> e.value.yearsOfExperience.None? || e.value.yearsOfExperience.value >= 0.0)
    ensures e.Some? && r.Some? ==> && r.value.skills == TrimAll(e.value.skills)
                                   && r.value.certifications == TrimAll(e.value.certifications)
                                   && r.value.yearsOfExperience == (if e.value.yearsOfExperience.Some? then e.value.yearsOfExperience.value else 0.0)
  {
    if e.None? then Some(Experience([], [], 0.0))
    else if e.value.yearsOfExperience.Some? && e.value.yearsOfExperience.value < 0.0 then None
    else
      var years := if e.value.yearsOfExperience.Some? then e.value.yearsOfExperience.value else 0.0;
      Some(Experience(TrimAll(e.value.skills), TrimAll(e.value.certifications), years))
  }

  /** `portfolio`: absent is two empty lists; given, each image and link is trimmed in place. */
  function CastPortfolio(p: Option<Portfolio>): (r: Portfolio)
    ensures AllTrimmed(r.images) && AllTrimmed(r.links)
    ensures p.None? ==> r.images == [] && r.links == []
    ensures p.Some? ==> r.images == TrimAll(p.value.images) && r.links == TrimAll(p.value.links)
  {
    if p.None? then Portfolio([], []) else Portfolio(TrimAll(p.value.images), TrimAll(p.value.links))
  }

  /** `booking`: the type is required and one of the enum; the cancellation policy is required text. */
  function CastBookingPolicy(b: Option<BookingPolicyInput>): (r: Option<BookingPolicy>)
    ensures r.Some? <==> && b.Some? && b.value.kind.Some? && ParseBookingType(b.value.kind.value).Some?
                         && CastRequiredText(b.value.cancellationPolicy, None).Some?
    ensures r.Some? ==> && Some(r.value.kind) == ParseBookingType(b.value.kind.value)
                        && r.value.requirements == TrimAll(b.value.requirements)
                        && r.value.cancellationPolicy == Trim(b.value.cancellationPolicy.value)
  {
    if b.None? || b.value.kind.None? then None
    else
      var kind := ParseBookingType(b.value.kind.value);
      var policy := CastRequiredText(b.value.cancellationPolicy, None);
      if kind.None? || policy.None? then None
      else Some(BookingPolicy(kind.value, TrimAll(b.value.requirements), policy.value))
  }

  /** `additionalInfo`: the estimated duration is required text, the service type a required enum. */
  function CastAdditionalInfo(a: Option<AdditionalInfoInput>): (r: Option<AdditionalInfo>)
    ensures r.Some? <==> && a.Some? && CastRequiredText(a.value.estimatedDuration, None).Some?
                         && a.value.serviceType.Some? && ParseServiceType(a.value.serviceType.value).Some?
    ensures r.Some? ==> && r.value.estimatedDuration == Trim(a.value.estimatedDuration.value)
                        && r.value.equipmentProvided == TrimAll(a.value.equipmentProvided)
                        && Some(r.value.serviceType) == ParseServiceType(a.value.serviceType.value)
  {
    if a.None? || a.value.serviceType.None? then None
    else
      var duration := CastRequiredText(a.value.estimatedDuration, None);
      var kind := ParseServiceType(a.value.serviceType.value);
      if duration.None? || kind.None? then None
      else Some(AdditionalInfo(duration.value, TrimAll(a.value.equipmentProvided), kind.value))
  }

  /** Mongoose's casting and validation of a new service at `save()`. `None`
      is a ValidationError; a path the schema does not declare is dropped, so a
      new service has no `serviceImage`. */
  function CastService(id: string, taskioId: string, input: ServiceInput, createdAt: int,
                       isObjectId: string -> bool): (r: Option<Service>)
    ensures r.Some? <==> && isObjectId(taskioId)
                         && CastRequiredText(input.title, Some(TitleMaxLength)).Some?
                         && CastRequiredText(input.category, None).Some?
                         && CastRequiredText(input.description, Some(DescriptionMaxLength)).Some?
                         && input.pricingModel.Some? && ParsePricingModel(input.pricingModel.value).Some?
                         && CastPriceRange(input.priceRange).Some?
                         && CastAvailability(input.availability).Some?
                         && CastLocation(input.location).Some?
                         && CastExperience(input.experience).Some?
                         && CastBookingPolicy(input.booking).Some?
                         && CastAdditionalInfo(input.additionalInfo).Some?
    ensures r.Some? ==> ValidService(r.value, isObjectId)
    ensures r.Some? ==> && r.value.id == id && r.value.taskioId == taskioId && r.value.createdAt == createdAt
                        && r.value.title == Trim(input.title.value)
                        && r.value.category == Trim(input.category.value)
                        && r.value.tags == TrimAll(input.tags)
                        && r.value.priceRange == CastPriceRange(input.priceRange).value
                        && r.value.serviceImage.None?
    ensures r.Some? ==> && r.value.description == Trim(input.description.value)
                        && Some(r.value.pricingModel) == ParsePricingModel(input.pricingModel.value)
    ensures r.Some? ==> && r.value.availability == CastAvailability(input.availability).value
                        && r.value.location == CastLocation(input.location).value
                        && r.value.experience == CastExperience(input.experience).value
    ensures r.Some? ==> && r.value.portfolio == CastPortfolio(input.portfolio)
                        && r.value.booking == CastBookingPolicy(input.booking).value
                        && r.value.additionalInfo == CastAdditionalInfo(input.additionalInfo).value
    ensures r.Some? ==> r.value.isActive == (input.isActive.None? || input.isActive.value)
    ensures r.Some? ==> r.value.isNegotiable == (input.isNegotiable.Some? && input.isNegotiable.value)
  {
    var title := CastRequiredText(input.title, Some(TitleMaxLength));
    var category := CastRequiredText(input.category, None);
    var description := CastRequiredText(input.description, Some(DescriptionMaxLength));
    var pricingModel := if input.pricingModel.None? then None else ParsePricingModel(input.pricingModel.value);
    var priceRange := CastPriceRange(input.priceRange);
    var availability := CastAvailability(input.availability);
    var location := CastLocation(input.location);
    var experience := CastExperience(input.experience);
    var booking := CastBookingPolicy(input.booking);
    var additionalInfo := CastAdditionalInfo(input.additionalInfo);
    if || !isObjectId(taskioId) || title.None? || category.None? || description.None? || pricingModel.None? || priceRange.None?
       || availability.None? || location.None? || experience.None? || booking.None? || additionalInfo.None?
    then None
    else
      Some(Service(id, taskioId, title.value, category.value, TrimAll(input.tags), description.value,
                   pricingModel.value, priceRange.value,
                   input.isNegotiable.Some? && input.isNegotiable.value,
                   availability.value, location.value, experience.value, CastPortfolio(input.portfolio),
                   booking.value, additionalInfo.value, None,
                   input.isActive.None? || input.isActive.value, createdAt))
  }

  /** The schema alone lets a service be stored with its minimum above its maximum:
      only the create route checks the order. */
  lemma SchemaAdmitsInvertedRange(owner: string, isObjectId: string -> bool)
    requires isObjectId(owner)
    ensures exists s :: ValidService(s, isObjectId) && s.priceRange.min > s.priceRange.max
  {
    var s := Service("s1", owner, "Gardening", "home", [], "Lawn care", Hourly,
                     PriceRange(50.0, 10.0, DefaultCurrency), false, Availability([], [], Medium),
                     Location(Remote, None, None), Experience([], [], 0.0), Portfolio([], []),
                     BookingPolicy(Instant, [], "none"), AdditionalInfo("1h", [], Individual),
                     None, true, 0);
    assert ValidService(s, isObjectId);
  }

  /** `Service.findById(id)`: the first service with that id. */
  function FindServiceById(services: seq<Service>, id: string): (r: Option<Service>)
    ensures r.Some? ==> r.value in services && r.value.id == id
    ensures r.None? <==> forall s :: s in services ==> s.id != id
  {
    if services == [] then None
    else if services[0].id == id then Some(services[0])
    else FindServiceById(services[1..], id)
  }
}
