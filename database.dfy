/** The MongoDB collections the routes share, as one mutable store: users,
    services and bookings, plus the images handed to the image host. Queries
    that only read are functions over these sequences; the routes that write
    (booking creation, image upload) are methods that update the store. */
module Database {
  import opened Common
  import opened UserModel
  import opened ServiceModel
  import opened BookingModel

  /** An image the host accepted: the folder it went to and the URL it answered with. */
  datatype HostedImage = HostedImage(folder: string, url: string)

  ghost predicate UsersValid(users: seq<User>)
  {
    forall i :: 0 <= i < |users| ==> ValidUser(users[i])
  }

  ghost predicate ServicesValid(services: seq<Service>, isObjectId: string -> bool)
  {
    forall i :: 0 <= i < |services| ==> ValidService(services[i], isObjectId)
  }

  ghost predicate BookingsValid(bookings: seq<Booking>, isObjectId: string -> bool)
  {
    forall i :: 0 <= i < |bookings| ==> ValidBooking(bookings[i], isObjectId)
  }

  /** Saving a valid booking keeps the collection valid. */
  lemma AppendValidBooking(bookings: seq<Booking>, b: Booking, isObjectId: string -> bool)
    requires BookingsValid(bookings, isObjectId) && ValidBooking(b, isObjectId)
    ensures BookingsValid(bookings + [b], isObjectId)
  {
  }

  class Store {
    var users: seq<User>
    var services: seq<Service>
    var bookings: seq<Booking>
    var hosted: seq<HostedImage>

    constructor()
      ensures users == [] && services == [] && bookings == [] && hosted == []
    {
      users := [];
      services := [];
      bookings := [];
      hosted := [];
    }

    /** Every stored document passed its schema when it was saved. */
    ghost predicate Valid(isObjectId: string -> bool)
      reads this
    {
      UsersValid(users) && ServicesValid(services, isObjectId) && BookingsValid(bookings, isObjectId)
    }
  }
}
