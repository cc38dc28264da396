/** The Booking document (src/models/Booking.ts): a customer's request for a
    taskio's service, its status enum and default, and the schema's casting
    (required fields, `min` bounds, trimmed address and contact strings). */
module BookingModel {
  import opened Common
  import opened Text

  datatype Status = Pending | Confirmed | InProgress | Completed | Cancelled

  function StatusName(s: Status): string
  {
    match s
    case Pending => "pending"
    case Confirmed => "confirmed"
    case InProgress => "in-progress"
    case Completed => "completed"
    case Cancelled => "cancelled"
  }

  /** The schema's `enum` on `status`. */
  function ParseStatus(s: string): (r: Option<Status>)
    ensures r.Some? <==> s in ["pending", "confirmed", "in-progress", "completed", "cancelled"]
    ensures r.Some? ==> StatusName(r.value) == s
  {
    if s == "pending" then Some(Pending) else if s == "confirmed" then Some(Confirmed)
    else if s == "in-progress" then Some(InProgress) else if s == "completed" then Some(Completed)
    else if s == "cancelled" then Some(Cancelled) else None
  }

  /** Every status has its own name, and the name reads back as the status. */
  lemma StatusNameRoundTrip(s: Status)
    ensures ParseStatus(StatusName(s)) == Some(s)
    ensures forall t: Status :: StatusName(t) == StatusName(s) ==> t == s
  {
  }

  const MinQuantity: real := 1.0

  /** A stored booking. Ids are the hex strings of ObjectIds; `bookingDate` is
      kept as the text it was given, which the `Date` cast accepted. */
  datatype Booking = Booking(
    id: string,
    serviceId: string,
    taskioId: string,
    customerId: string,
    price: real,
    quantity: real,
    totalPrice: real,
    bookingDate: string,
    bookingTime: string,
    address: string,
    city: string,
    state: string,
    zipCode: string,
    specialInstructions: Option<string>,
    contactPhone: string,
    contactEmail: string,
    status: Status,
    createdAt: int)

  /** A required string after the `trim` setter: non-empty and trimmed. */
  predicate RequiredTrimmed(s: string)
  {
    |s| > 0 && Trimmed(s)
  }

  /** What the schema guarantees of every stored booking. */
  predicate ValidBooking(b: Booking, isObjectId: string -> bool)
  {
    && isObjectId(b.serviceId) && isObjectId(b.taskioId) && isObjectId(b.customerId)
    && b.price >= 0.0 && b.quantity >= MinQuantity && b.totalPrice >= 0.0
    && |b.bookingDate| > 0 && |b.bookingTime| > 0
    && RequiredTrimmed(b.address) && RequiredTrimmed(b.city) && RequiredTrimmed(b.state)
    && RequiredTrimmed(b.zipCode) && RequiredTrimmed(b.contactPhone) && RequiredTrimmed(b.contactEmail)
    && (b.specialInstructions.Some? ==> Trimmed(b.specialInstructions.value))
  }

  /** The fields handed to `new Booking({...})`; absent or `null` is `None`. */
  datatype BookingInput = BookingInput(
    serviceId: Option<string>,
    taskioId: Option<string>,
    customerId: Option<string>,
    price: Option<real>,
    quantity: Option<real>,
    totalPrice: Option<real>,
    bookingDate: Option<string>,
    bookingTime: Option<string>,
    address: Option<string>,
    city: Option<string>,
    state: Option<string>,
    zipCode: Option<string>,
    specialInstructions: Option<string>,
    contactPhone: Option<string>,
    contactEmail: Option<string>,
    status: Option<string>)

  /** An ObjectId path: required and castable. */
  function CastId(s: Option<string>, isObjectId: string -> bool): (r: Option<string>)
    ensures r.Some? <==> s.Some? && isObjectId(s.value)
    ensures r.Some? ==> r.value == s.value
  {
    if s.Some? && isObjectId(s.value) then s else None
  }

  /** A required `Number` with a `min` bound. */
  function CastAtLeast(x: Option<real>, min: real): (r: Option<real>)
    ensures r.Some? <==> x.Some? && x.value >= min
    ensures r.Some? ==> r.value == x.value
  {
    if x.Some? && x.value >= min then x else None
  }

  /** A required `String` with the `trim` setter. */
  function CastTrimmed(s: Option<string>): (r: Option<string>)
    ensures r.Some? <==> s.Some? && |Trim(s.value)| > 0
    ensures r.Some? ==> r.value == Trim(s.value) && RequiredTrimmed(r.value)
  {
    if s.None? then None
    else
      var t := Trim(s.value);
      if |t| == 0 then None else Some(t)
  }

  /** A required `String` without a setter: `bookingTime`. */
  function CastRequired(s: Option<string>): (r: Option<string>)
    ensures r.Some? <==> s.Some? && |s.value| > 0
    ensures r.Some? ==> r.value == s.value
  {
    if s.Some? && |s.value| > 0 then s else None
  }

  /** The required `Date` path `bookingDate`. `isDate` says whether mongoose
      can cast the text to a date; an empty text casts to `null`, which
      `required` refuses. The text that passed is kept. */
  function CastDate(s: Option<string>, isDate: string -> bool): (r: Option<string>)
    ensures r.Some? <==> s.Some? && |s.value| > 0 && isDate(s.value)
    ensures r.Some? ==> r.value == s.value
  {
    if s.Some? && |s.value| > 0 && isDate(s.value) then s else None
  }

  /** `status`: `'pending'` when absent, otherwise one of the enum. */
  function CastStatus(s: Option<string>): (r: Option<Status>)
    ensures s.None? ==> r == Some(Pending)
    ensures s.Some? ==> r == ParseStatus(s.value)
  {
    if s.None? then Some(Pending) else ParseStatus(s.value)
  }

  /** The contact and address strings, each cast as required trimmed text. */
  datatype Contact = Contact(address: string, city: string, state: string, zipCode: string,
                             contactPhone: string, contactEmail: string)

  function CastContact(input: BookingInput): (r: Option<Contact>)
    ensures r.Some? <==> && CastTrimmed(input.address).Some? && CastTrimmed(input.city).Some?
                         && CastTrimmed(input.state).Some? && CastTrimmed(input.zipCode).Some?
                         && CastTrimmed(input.contactPhone).Some? && CastTrimmed(input.contactEmail).Some?
    ensures r.Some? ==> && r.value.address == Trim(input.address.value) && RequiredTrimmed(r.value.address)
                        && r.value.city == Trim(input.city.value) && RequiredTrimmed(r.value.city)
                        && r.value.state == Trim(input.state.value) && RequiredTrimmed(r.value.state)
                        && r.value.zipCode == Trim(input.zipCode.value) && RequiredTrimmed(r.value.zipCode)
                        && r.value.contactPhone == Trim(input.contactPhone.value) && RequiredTrimmed(r.value.contactPhone)
                        && r.value.contactEmail == Trim(input.contactEmail.value) && RequiredTrimmed(r.value.contactEmail)
  {
    var address := CastTrimmed(input.address);
    var city := CastTrimmed(input.city);
    var state := CastTrimmed(input.state);
    var zipCode := CastTrimmed(input.zipCode);
    var phone := CastTrimmed(input.contactPhone);
    var email := CastTrimmed(input.contactEmail);
    if address.None? || city.None? || state.None? || zipCode.None? || phone.None? || email.None? then None
    else Some(Contact(address.value, city.value, state.value, zipCode.value, phone.value, email.value))
  }

  /** Mongoose's casting and validation of a new booking at `save()`. `None` is a ValidationError. */
  function CastBooking(id: string, input: BookingInput, createdAt: int, isObjectId: string -> bool,
                       isDate: string -> bool): (r: Option<Booking>)
    ensures r.Some? <==> && CastId(input.serviceId, isObjectId).Some? && CastId(input.taskioId, isObjectId).Some?
                         && CastId(input.customerId, isObjectId).Some?
                         && CastAtLeast(input.price, 0.0).Some? && CastAtLeast(input.quantity, MinQuantity).Some?
                         && CastAtLeast(input.totalPrice, 0.0).Some?
                         && CastDate(input.bookingDate, isDate).Some? && CastRequired(input.bookingTime).Some?
                         && CastContact(input).Some? && CastStatus(input.status).Some?
    ensures r.Some? ==> ValidBooking(r.value, isObjectId)
    ensures r.Some? ==> && r.value.id == id && r.value.createdAt == createdAt
                        && r.value.serviceId == input.serviceId.value && r.value.taskioId == input.taskioId.value
                        && r.value.customerId == input.customerId.value
                        && r.value.price == input.price.value && r.value.quantity == input.quantity.value
                        && r.value.totalPrice == input.totalPrice.value
                        && r.value.address == Trim(input.address.value)
                        && r.value.contactEmail == Trim(input.contactEmail.value)
                        && r.value.status == CastStatus(input.status).value
    ensures r.Some? ==> && r.value.bookingDate == input.bookingDate.value
                        && r.value.bookingTime == input.bookingTime.value
    ensures r.Some? ==> && r.value.city == Trim(input.city.value) && r.value.state == Trim(input.state.value)
                        && r.value.zipCode == Trim(input.zipCode.value)
                        && r.value.contactPhone == Trim(input.contactPhone.value)
    ensures r.Some? ==> r.value.specialInstructions == (if input.specialInstructions.Some?
                                                         then Some(Trim(input.specialInstructions.value)) else None)
    ensures r.Some? ==> (input.status.None? ==> r.value.status == Pending)
  {
    var serviceId := CastId(input.serviceId, isObjectId);
    var taskioId := CastId(input.taskioId, isObjectId);
    var customerId := CastId(input.customerId, isObjectId);
    var price := CastAtLeast(input.price, 0.0);
    var quantity := CastAtLeast(input.quantity, MinQuantity);
    var totalPrice := CastAtLeast(input.totalPrice, 0.0);
    var date := CastDate(input.bookingDate, isDate);
    var time := CastRequired(input.bookingTime);
    var contact := CastContact(input);
    var status := CastStatus(input.status);
    var instructions := if input.specialInstructions.Some? then Some(Trim(input.specialInstructions.value)) else None;
    if || serviceId.None? || taskioId.None? || customerId.None? || price.None? || quantity.None?
       || totalPrice.None? || date.None? || time.None? || contact.None? || status.None?
    then None
    else
      var c := contact.value;
      Some(Booking(id, serviceId.value, taskioId.value, customerId.value, price.value, quantity.value,
                   totalPrice.value, date.value, time.value, c.address, c.city, c.state, c.zipCode,
                   instructions, c.contactPhone, c.contactEmail, status.value, createdAt))
  }

  /** `specialInstructions` is optional: leaving it out never makes a cast fail. */
  lemma SpecialInstructionsOptional(id: string, input: BookingInput, createdAt: int, isObjectId: string -> bool,
                                    isDate: string -> bool)
    ensures CastBooking(id, input.(specialInstructions := None), createdAt, isObjectId, isDate).Some?
            == CastBooking(id, input, createdAt, isObjectId, isDate).Some?
  {
    assert CastContact(input.(specialInstructions := None)) == CastContact(input);
  }

  /** Casting the fields of a valid booking gives that booking back: the schema
      accepts what it stores, unchanged. */
  lemma CastBookingRoundTrip(b: Booking, isObjectId: string -> bool, isDate: string -> bool)
    requires ValidBooking(b, isObjectId) && isDate(b.bookingDate)
    ensures CastBooking(b.id, InputOf(b), b.createdAt, isObjectId, isDate) == Some(b)
  {
    var input := InputOf(b);
    TrimFixesTrimmed(b.address);
    TrimFixesTrimmed(b.city);
    TrimFixesTrimmed(b.state);
    TrimFixesTrimmed(b.zipCode);
    TrimFixesTrimmed(b.contactPhone);
    TrimFixesTrimmed(b.contactEmail);
    if b.specialInstructions.Some? {
      TrimFixesTrimmed(b.specialInstructions.value);
    }
    StatusNameRoundTrip(b.status);
    var c := CastContact(input);
    assert c == Some(Contact(b.address, b.city, b.state, b.zipCode, b.contactPhone, b.contactEmail));
  }

  /** The stored fields of `b` as a request body would carry them. */
  function InputOf(b: Booking): BookingInput
  {
    BookingInput(Some(b.serviceId), Some(b.taskioId), Some(b.customerId), Some(b.price), Some(b.quantity),
                 Some(b.totalPrice), Some(b.bookingDate), Some(b.bookingTime), Some(b.address), Some(b.city),
                 Some(b.state), Some(b.zipCode), b.specialInstructions, Some(b.contactPhone),
                 Some(b.contactEmail), Some(StatusName(b.status)))
  }
}
