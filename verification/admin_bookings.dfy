/** The admin bookings page: which buttons each booking offers, the status
    filter, the per-status counts on the filter tabs and the status labels.
    The buttons are the only place the booking workflow shows in this code:
    a status change is offered only along pending → confirmed → completed,
    with cancel from pending or confirmed, and delete from every status. */
module AdminBookings {
  import opened Common
  import opened Store

  const Statuses: seq<string> := ["pending", "confirmed", "completed", "cancelled"]

  /** A button on a booking card. */
  datatype Action = SetStatus(target: string) | Delete

  /** The buttons of one booking card, left to right: Confirm (pending),
      Complete (confirmed), Cancel (pending or confirmed), Delete (always). */
  function Actions(status: string): seq<Action>
  {
    (if status == "pending" then [SetStatus("confirmed")] else [])
    + (if status == "confirmed" then [SetStatus("completed")] else [])
    + (if status == "pending" || status == "confirmed" then [SetStatus("cancelled")] else [])
    + [Delete]
  }

  /** The booking workflow as a transition table. */
  predicate Allowed(from: string, to: string)
  {
    || (from == "pending" && (to == "confirmed" || to == "cancelled"))
    || (from == "confirmed" && (to == "completed" || to == "cancelled"))
  }

  /** A card offers a status change exactly when the workflow allows it,
      always offers delete, and the card of a completed, cancelled or
      unknown status offers delete alone. */
  lemma {:induction false} ActionsFollowWorkflow(status: string)
    ensures forall to :: SetStatus(to) in Actions(status) <==> Allowed(status, to)
    ensures Delete in Actions(status)
    ensures !(status == "pending" || status == "confirmed") ==> Actions(status) == [Delete]
    ensures status == "pending" ==> Actions(status) == [SetStatus("confirmed"), SetStatus("cancelled"), Delete]
    ensures status == "confirmed" ==> Actions(status) == [SetStatus("completed"), SetStatus("cancelled"), Delete]
  {
  }

  /** The workflow only moves forward: no button leads back to `pending`,
      and every offered change strictly raises the stage. */
  function Stage(s: string): int
  {
    if s == "pending" then 0 else if s == "confirmed" then 1 else 2
  }

  lemma {:induction false} WorkflowMovesForward(from: string, to: string)
    requires SetStatus(to) in Actions(from)
    ensures to != "pending"
    ensures Stage(from) < Stage(to)
    ensures to in Statuses
  {
    ActionsFollowWorkflow(from);
  }

  /** `filtered`: every booking under `all`, otherwise those whose status
      equals the selected tab, in their original order. */
  function FilteredBookings(bookings: seq<Booking>, filter: string): (r: seq<Booking>)
    ensures filter == "all" ==> r == bookings
    ensures filter != "all" ==> forall i :: 0 <= i < |r| ==> r[i] in bookings && r[i].status == filter
    ensures filter != "all" ==> forall i :: 0 <= i < |bookings| && bookings[i].status == filter ==> bookings[i] in r
  {
    FilterComplete(bookings, (b: Booking) => b.status == filter);
    if filter == "all" then bookings else Filter(bookings, (b: Booking) => b.status == filter)
  }

  lemma {:induction false} FilteredBookingsKeepOrder(a: seq<Booking>, b: seq<Booking>, filter: string)
    ensures FilteredBookings(a + b, filter) == FilteredBookings(a, filter) + FilteredBookings(b, filter)
  {
    if filter != "all" {
      FilterAppend(a, b, (x: Booking) => x.status == filter);
    }
  }

  /** The count on a status tab: `bookings.filter(b => b.status === s).length`. */
  function CountWithStatus(bookings: seq<Booking>, s: string): (r: nat)
    ensures r <= |bookings|
    ensures s != "all" ==> r == |FilteredBookings(bookings, s)|
  {
    |Filter(bookings, (b: Booking) => b.status == s)|
  }

  /** The four tab counts add up to the number of bookings whose status is
      one of the four known statuses; bookings of any other status are on
      no tab but `all`. */
  lemma {:induction false} TabCountsAdd(bookings: seq<Booking>)
    ensures CountWithStatus(bookings, "pending") + CountWithStatus(bookings, "confirmed")
          + CountWithStatus(bookings, "completed") + CountWithStatus(bookings, "cancelled")
         == |Filter(bookings, (b: Booking) => b.status in Statuses)|
  {
    FilterCountsAdd(bookings);
  }

  lemma {:induction false} FilterCountsAdd(bookings: seq<Booking>)
    ensures |Filter(bookings, (b: Booking) => b.status == "pending")| + |Filter(bookings, (b: Booking) => b.status == "confirmed")|
          + |Filter(bookings, (b: Booking) => b.status == "completed")| + |Filter(bookings, (b: Booking) => b.status == "cancelled")|
         == |Filter(bookings, (b: Booking) => b.status in Statuses)|
    decreases |bookings|
  {
    if |bookings| > 0 {
      FilterCountsAdd(bookings[1..]);
    }
  }

  /** The admin language of the page: the session's `adminLang`, or `EN`. */
  function PageLanguage(adminLang: Option<string>): (r: string)
    ensures Truthy(adminLang) ==> r == adminLang.value
    ensures !Truthy(adminLang) ==> r == "EN"
  {
    OrElse(adminLang, "EN")
  }

  /** The label table of `statusLabel`, by status and admin language. */
  function LabelOf(s: string, lang: string): Option<string>
  {
    if lang != "EN" && lang != "TH" then None
    else if s == "pending" then Some(if lang == "EN" then "Pending" else "รอดำเนินการ")
    else if s == "confirmed" then Some(if lang == "EN" then "Confirmed" else "ยืนยันแล้ว")
    else if s == "completed" then Some(if lang == "EN" then "Completed" else "เสร็จสิ้น")
    else if s == "cancelled" then Some(if lang == "EN" then "Cancelled" else "ยกเลิก")
    else None
  }

  /** `statusLabel`: the label in the admin language, or the raw status
      when the status or the language is not in the table. */
  function StatusLabel(s: string, lang: string): (r: string)
    ensures s !in Statuses ==> r == s
    ensures lang != "EN" && lang != "TH" ==> r == s
    ensures s in Statuses && (lang == "EN" || lang == "TH") ==> r != s && Some(r) == LabelOf(s, lang)
  {
    match LabelOf(s, lang)
    case Some(l) => if l != "" then l else s
    case None => s
  }

  /** A session without an admin language sees the English labels, and a
      session set to `EN` or `TH` sees that language's labels. */
  lemma {:induction false} PageLanguageLabels(adminLang: Option<string>, s: string)
    requires s in Statuses
    ensures !Truthy(adminLang) ==> StatusLabel(s, PageLanguage(adminLang)) == LabelOf(s, "EN").value
    ensures Truthy(adminLang) && (adminLang.value == "EN" || adminLang.value == "TH") ==>
      StatusLabel(s, PageLanguage(adminLang)) == LabelOf(s, adminLang.value).value
  {
  }

  /** `statusColors[booking.status] || 'bg-gray-100 text-gray-800'`. */
  function BadgeColour(s: string): (r: string)
    ensures s !in Statuses ==> r == "bg-gray-100 text-gray-800"
    ensures s in Statuses ==> r != "bg-gray-100 text-gray-800"
  {
    if s == "pending" then "bg-yellow-100 text-yellow-800"
    else if s == "confirmed" then "bg-blue-100 text-blue-800"
    else if s == "completed" then "bg-green-100 text-green-800"
    else if s == "cancelled" then "bg-red-100 text-red-800"
    else "bg-gray-100 text-gray-800"
  }

  /** Each known status has a badge colour of its own. */
  lemma BadgeColoursDistinct()
    ensures forall i, j :: 0 <= i < j < |Statuses| ==> BadgeColour(Statuses[i]) != BadgeColour(Statuses[j])
  {
  }
}
