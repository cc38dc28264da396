/** The provider's bookings page (src/app/dashboard/bookings/page.tsx): the
    bookings fetched with `?role=taskio`, a status filter with a count per
    status, a colour per status, the next statuses each booking offers, and
    the local update after a status change. */
module BookingDashboard {
  import opened Common
  import opened BookingModel
  import opened BookingsRoute

  const AllStatuses: string := "all"
  const LoadFailed: string := "Failed to load bookings"
  const StatusUpdateFailed: string := "Failed to update booking status"

  const PendingColor: string := "bg-yellow-100 text-yellow-800"
  const ConfirmedColor: string := "bg-blue-100 text-blue-800"
  const InProgressColor: string := "bg-purple-100 text-purple-800"
  const CompletedColor: string := "bg-green-100 text-green-800"
  const CancelledColor: string := "bg-red-100 text-red-800"
  const DefaultColor: string := "bg-gray-100 text-gray-800"

  /** `booking.status === status`, with the status written as the page writes it. */
  predicate HasStatus(b: BookingView, status: string)
  {
    StatusName(b.status) == status
  }

  /** `filteredBookings`: every booking for `'all'`, otherwise those with the
      selected status. */
  function FilteredBookings(bookings: seq<BookingView>, selected: string): (r: seq<BookingView>)
    ensures selected == AllStatuses ==> r == bookings
    ensures selected != AllStatuses ==> forall b :: b in r <==> b in bookings && HasStatus(b, selected)
    ensures |r| <= |bookings|
  {
    if selected == AllStatuses then bookings else Filter(bookings, b => HasStatus(b, selected))
  }

  /** The filter keeps the page's order: filtering a list split in two filters
      each part and joins them in the same order. */
  lemma FilteredKeepsOrder(a: seq<BookingView>, b: seq<BookingView>, selected: string)
    ensures FilteredBookings(a + b, selected) == FilteredBookings(a, selected) + FilteredBookings(b, selected)
  {
    if selected != AllStatuses {
      FilterConcat(a, b, x => HasStatus(x, selected));
    }
  }

  /** `getStatusCount`. */
  function StatusCount(bookings: seq<BookingView>, status: string): nat
  {
    Count(bookings, b => HasStatus(b, status))
  }

  /** The count shown on a status button is the length of the list that button selects. */
  lemma {:induction false} StatusCountIsFilterLength(bookings: seq<BookingView>, status: string)
    requires status != AllStatuses
    ensures StatusCount(bookings, status) == |FilteredBookings(bookings, status)|
  {
    if bookings != [] {
      StatusCountIsFilterLength(bookings[1..], status);
      assert bookings == [bookings[0]] + bookings[1..];
      FilterConcat([bookings[0]], bookings[1..], b => HasStatus(b, status));
    }
  }

  /** The five counts add up to the `All` count. */
  lemma {:induction false} StatusCountsSumToAll(bookings: seq<BookingView>)
    ensures StatusCount(bookings, "pending") + StatusCount(bookings, "confirmed")
            + StatusCount(bookings, "in-progress") + StatusCount(bookings, "completed")
            + StatusCount(bookings, "cancelled") == |bookings|
  {
    if bookings != [] {
      StatusCountsSumToAll(bookings[1..]);
    }
  }

  /** `getStatusColor`. */
  function StatusColor(status: string): string
  {
    match status
    case "pending" => PendingColor
    case "confirmed" => ConfirmedColor
    case "in-progress" => InProgressColor
    case "completed" => CompletedColor
    case "cancelled" => CancelledColor
    case _ => DefaultColor
  }

  /** Each status has a colour of its own, and any other string is gray. */
  lemma StatusColorsDistinct(s: Status, t: Status, other: string)
    requires ParseStatus(other).None?
    ensures StatusColor(StatusName(s)) == StatusColor(StatusName(t)) <==> s == t
    ensures StatusColor(StatusName(s)) != DefaultColor
    ensures StatusColor(other) == DefaultColor
  {
  }

  /** A status button: its caption and the status it asks for. */
  datatype Action = Action(caption: string, next: Status)

  /** The buttons under a booking, by its status. */
  function Actions(s: Status): seq<Action>
  {
    match s
    case Pending => [Action("Confirm Booking", Confirmed), Action("Cancel Booking", Cancelled)]
    case Confirmed => [Action("Start Service", InProgress)]
    case InProgress => [Action("Mark Complete", Completed)]
    case Completed => []
    case Cancelled => []
  }

  /** The statuses a booking can be moved to from the page. */
  predicate Offered(from: Status, to: Status)
  {
    exists a :: a in Actions(from) && a.next == to
  }

  /** How far along a booking is; cancelled is as final as completed. */
  function Stage(s: Status): nat
  {
    match s
    case Pending => 0
    case Confirmed => 1
    case InProgress => 2
    case Completed => 3
    case Cancelled => 3
  }

  /** The offered moves, exactly: pending to confirmed or cancelled,
      confirmed to in progress, in progress to completed, and nothing from
      completed or cancelled. */
  lemma OfferedMoves(from: Status, to: Status)
    ensures Offered(from, to) <==> || (from == Pending && (to == Confirmed || to == Cancelled))
                                   || (from == Confirmed && to == InProgress)
                                   || (from == InProgress && to == Completed)
  {
    if from == Pending && to == Confirmed { assert Actions(from)[0].next == to; }
    if from == Pending && to == Cancelled { assert Actions(from)[1].next == to; }
    if from == Confirmed && to == InProgress { assert Actions(from)[0].next == to; }
    if from == InProgress && to == Completed { assert Actions(from)[0].next == to; }
  }

  /** Every offered move goes forward, so no booking can be moved back, and
      only a cancellation is offered before the service has started. */
  lemma OfferedMovesGoForward(from: Status, to: Status)
    requires Offered(from, to)
    ensures Stage(from) < Stage(to)
    ensures to != Pending
    ensures to == Cancelled ==> from == Pending
  {
    OfferedMoves(from, to);
  }

  /** The local update after a successful PATCH: the booking with that id
      takes the new status. */
  function MarkStatus(bookings: seq<BookingView>, id: string, status: Status): (r: seq<BookingView>)
    ensures |r| == |bookings|
    ensures forall i :: 0 <= i < |bookings| && bookings[i].id != id ==> r[i] == bookings[i]
    ensures forall i :: 0 <= i < |bookings| && bookings[i].id == id ==> r[i] == bookings[i].(status := status)
  {
    seq(|bookings|, i requires 0 <= i < |bookings| =>
      if bookings[i].id == id then bookings[i].(status := status) else bookings[i])
  }

  /** After a change of the booking at `k` (ids being unique), its new
      status counts one more and its old status one less. */
  lemma MarkStatusMovesCounts(bookings: seq<BookingView>, k: nat, status: Status)
    requires k < |bookings| && bookings[k].status != status
    requires forall i, j :: 0 <= i < j < |bookings| ==> bookings[i].id != bookings[j].id
    ensures var marked := MarkStatus(bookings, bookings[k].id, status);
            && StatusCount(marked, StatusName(status)) == StatusCount(bookings, StatusName(status)) + 1
            && StatusCount(marked, StatusName(bookings[k].status)) == StatusCount(bookings, StatusName(bookings[k].status)) - 1
  {
    var id := bookings[k].id;
    MarkOneCount(bookings, id, status, k, StatusName(status));
    MarkOneCount(bookings, id, status, k, StatusName(bookings[k].status));
    StatusNameRoundTrip(status);
  }

  /** The count of one status after marking the single booking at `k`. */
  lemma {:induction false} MarkOneCount(bookings: seq<BookingView>, id: string, status: Status, k: nat, s: string)
    requires k < |bookings| && bookings[k].id == id
    requires forall i :: 0 <= i < |bookings| && i != k ==> bookings[i].id != id
    ensures StatusCount(MarkStatus(bookings, id, status), s) + (if HasStatus(bookings[k], s) then 1 else 0)
            == StatusCount(bookings, s) + (if StatusName(status) == s then 1 else 0)
  {
    var r := MarkStatus(bookings, id, status);
    if k == 0 {
      assert r[1..] == bookings[1..];
    } else {
      assert r[1..] == MarkStatus(bookings[1..], id, status);
      MarkOneCount(bookings[1..], id, status, k - 1, s);
    }
  }

  /** How the PATCH ends: the request throws, or it answers with `success`. */
  datatype PatchOutcome = PatchThrew | PatchAnswered(success: bool)

  datatype Toast = ErrorToast(message: string) | SuccessToast(message: string)

  /** The page's state. */
  class BookingsPanel {
    var bookings: seq<BookingView>
    var isLoading: bool
    var selectedStatus: string
    var isUpdatingStatus: Option<string>

    constructor()
      ensures bookings == [] && isLoading && selectedStatus == AllStatuses && isUpdatingStatus.None?
    {
      bookings := [];
      isLoading := true;
      selectedStatus := AllStatuses;
      isUpdatingStatus := None;
    }

    /** The list on screen. */
    function Shown(): seq<BookingView>
      reads this
    {
      FilteredBookings(bookings, selectedStatus)
    }

    /** `disabled={isUpdatingStatus === booking._id}`. */
    predicate ActionsDisabled(id: string)
      reads this
    {
      isUpdatingStatus == Some(id)
    }

    /** `fetchBookings`, given the response's list or `None` when the request
        fails: the list is replaced only on success, and loading ends either way. */
    method FetchBookings(response: Option<seq<BookingView>>) returns (toast: Option<Toast>)
      modifies this
      ensures response.Some? ==> bookings == response.value && toast.None?
      ensures response.None? ==> bookings == old(bookings) && toast == Some(ErrorToast(LoadFailed))
      ensures !isLoading
      ensures selectedStatus == old(selectedStatus) && isUpdatingStatus == old(isUpdatingStatus)
    {
      isLoading := true;
      toast := None;
      if response.Some? {
        bookings := response.value;
      } else {
        toast := Some(ErrorToast(LoadFailed));
      }
      isLoading := false;
    }

    /** A click on a filter button. */
    method SelectStatus(status: string)
      modifies this
      ensures selectedStatus == status
      ensures bookings == old(bookings) && isLoading == old(isLoading) && isUpdatingStatus == old(isUpdatingStatus)
      ensures status == AllStatuses ==> Shown() == bookings
    {
      selectedStatus := status;
    }

    /** Up to the PATCH: the booking's buttons are disabled. */
    method BeginUpdate(bookingId: string)
      modifies this
      ensures isUpdatingStatus == Some(bookingId) && ActionsDisabled(bookingId)
      ensures bookings == old(bookings) && isLoading == old(isLoading) && selectedStatus == old(selectedStatus)
    {
      isUpdatingStatus := Some(bookingId);
    }

    /** From the response on: the local list changes only when `success` is
        truthy, and the buttons are enabled again whatever happened. */
    method FinishUpdate(bookingId: string, newStatus: Status, outcome: PatchOutcome) returns (toast: Option<Toast>)
      modifies this
      ensures outcome == PatchAnswered(true) ==>
                bookings == MarkStatus(old(bookings), bookingId, newStatus)
                && toast == Some(SuccessToast("Booking status updated to " + StatusName(newStatus)))
      ensures outcome == PatchAnswered(false) ==> bookings == old(bookings) && toast.None?
      ensures outcome == PatchThrew ==> bookings == old(bookings) && toast == Some(ErrorToast(StatusUpdateFailed))
      ensures isUpdatingStatus.None?
      ensures isLoading == old(isLoading) && selectedStatus == old(selectedStatus)
    {
      toast := None;
      if outcome.PatchThrew? {
        toast := Some(ErrorToast(StatusUpdateFailed));
      } else if outcome.success {
        toast := Some(SuccessToast("Booking status updated to " + StatusName(newStatus)));
        bookings := MarkStatus(bookings, bookingId, newStatus);
      }
      isUpdatingStatus := None;
    }

    /** `updateBookingStatus`, with `patch` standing for the request. */
    method UpdateBookingStatus(bookingId: string, newStatus: Status, patch: (string, Status) -> PatchOutcome)
      returns (toast: Option<Toast>)
      modifies this
      ensures patch(bookingId, newStatus) == PatchAnswered(true) ==>
                bookings == MarkStatus(old(bookings), bookingId, newStatus)
      ensures patch(bookingId, newStatus) != PatchAnswered(true) ==> bookings == old(bookings)
      ensures isUpdatingStatus.None?
      ensures isLoading == old(isLoading) && selectedStatus == old(selectedStatus)
    {
      BeginUpdate(bookingId);
      toast := FinishUpdate(bookingId, newStatus, patch(bookingId, newStatus));
    }
  }
}
