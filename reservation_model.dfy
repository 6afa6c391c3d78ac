/** The reservation schema: required user, resource, start and end, and a
    status drawn from four values that defaults to `pending`. The schema
    relates neither the start to the end nor the resource to the catalog. */
module ReservationModel {
  import opened Common

  datatype Status = Pending | Confirmed | Rejected | Completed

  /** The enum in the order the schema lists it. */
  const StatusValues: seq<Status> := [Pending, Confirmed, Rejected, Completed]

  function StatusName(s: Status): string {
    match s
    case Pending => "pending"
    case Confirmed => "confirmed"
    case Rejected => "rejected"
    case Completed => "completed"
  }

  /** The status path's enum check. */
  function ParseStatus(text: string): (r: Option<Status>)
    ensures r.Some? ==> StatusName(r.value) == text
    ensures forall s :: StatusName(s) == text ==> r == Some(s)
  {
    if text == "pending" then Some(Pending)
    else if text == "confirmed" then Some(Confirmed)
    else if text == "rejected" then Some(Rejected)
    else if text == "completed" then Some(Completed)
    else None
  }

  /** Casting the status path of a new document: an absent status takes
      the default, a present one must be in the enum. */
  function CastStatus(v: Option<string>): (r: Option<Status>)
    ensures v.None? ==> r == Some(Pending)
    ensures v.Some? ==> r == ParseStatus(v.value)
  {
    match v
    case None => Some(Pending)
    case Some(text) => ParseStatus(text)
  }

  datatype Reservation = Reservation(user: ObjectId, resource: ObjectId, startTime: int, endTime: int, status: Status)

  /** `new Reservation({...})` followed by validation. The two references
      are cast to ObjectIds; the times are required but never compared. */
  function NewReservation(user: string, resource: string, startTime: Option<int>, endTime: Option<int>,
                          status: Option<string>): (r: Option<Reservation>)
    ensures r.Some? <==> IsObjectId(user) && IsObjectId(resource) && startTime.Some? && endTime.Some? && CastStatus(status).Some?
    ensures r.Some? ==> r.value == Reservation(Canonical(user), Canonical(resource), startTime.value, endTime.value, CastStatus(status).value)
  {
    var cast := CastStatus(status);
    if !IsObjectId(user) || !IsObjectId(resource) || startTime.None? || endTime.None? || cast.None? then None
    else Some(Reservation(Canonical(user), Canonical(resource), startTime.value, endTime.value, cast.value))
  }

  /** The schema accepts a window that ends before it starts: ordering is
      the controller's business alone. */
  lemma SchemaAcceptsInvertedWindow(user: string, resource: string, startTime: int, endTime: int)
    requires IsObjectId(user) && IsObjectId(resource) && endTime <= startTime
    ensures NewReservation(user, resource, Some(startTime), Some(endTime), None).Some?
  {
  }
}
