/** The administrator's reservation table: the labels shown for references
    that no longer resolve, the status selector, and the status change that
    refetches the table. */
module AdminReservationsPage {
  import opened Common
  import opened ReservationModel
  import opened ResourceModel
  import opened UserModel
  import RC = ReservationController

  datatype UserRef = UserRef(id: string, name: string)
  datatype ResourceRef = ResourceRef(id: string, name: string)

  /** One row as the page receives it; a dangling reference arrives null. */
  datatype Row = Row(id: string, user: Option<UserRef>, resource: Option<ResourceRef>,
                     startTime: int, endTime: int, status: string)

  const DeletedUser := "[Deleted User]"
  const DeletedResource := "[Deleted Resource]"
  const NoReservationsMessage := "There are currently no reservations in the system."

  /** `res.user?.name || '[Deleted User]'`. */
  function UserLabel(row: Row): (shown: string)
    ensures shown != ""
    ensures row.user.None? ==> shown == DeletedUser
    ensures row.user.Some? && row.user.value.name == "" ==> shown == DeletedUser
    ensures row.user.Some? && row.user.value.name != "" ==> shown == row.user.value.name
  {
    if row.user.Some? && row.user.value.name != "" then row.user.value.name else DeletedUser
  }

  /** `res.resource?.name || '[Deleted Resource]'`. */
  function ResourceLabel(row: Row): (shown: string)
    ensures shown != ""
    ensures row.resource.None? ==> shown == DeletedResource
    ensures row.resource.Some? && row.resource.value.name == "" ==> shown == DeletedResource
    ensures row.resource.Some? && row.resource.value.name != "" ==> shown == row.resource.value.name
  {
    if row.resource.Some? && row.resource.value.name != "" then row.resource.value.name else DeletedResource
  }

  /** The values the status selector offers, in its order. */
  const StatusOptions: seq<string> := ["pending", "confirmed", "rejected", "completed"]

  /** The selector offers exactly the schema's enum: the same values in the
      same order, each one accepted by the server. */
  lemma StatusOptionsMatchSchema()
    ensures |StatusOptions| == |StatusValues|
    ensures forall k :: 0 <= k < |StatusOptions| ==> StatusOptions[k] == StatusName(StatusValues[k])
    ensures forall k :: 0 <= k < |StatusOptions| ==> ParseStatus(StatusOptions[k]).Some?
    ensures forall s: Status :: StatusName(s) in StatusOptions
  {
    forall s: Status ensures StatusName(s) in StatusOptions {
      match s
      case Pending => assert StatusOptions[0] == StatusName(s);
      case Confirmed => assert StatusOptions[1] == StatusName(s);
      case Rejected => assert StatusOptions[2] == StatusName(s);
      case Completed => assert StatusOptions[3] == StatusName(s);
    }
  }

  /** The JSON the server's full listing sends for one reservation. */
  function RowFromServer(id: ObjectId, r: RC.AdminReservationRow): Row {
    Row(id,
        if r.user.Some? then Some(UserRef(r.user.value.id, r.user.value.name)) else None,
        if r.resource.Some? then Some(ResourceRef(r.resource.value.id, r.resource.value.name)) else None,
        r.startTime, r.endTime, StatusName(r.status))
  }

  /** A reservation whose resource has been deleted (the catalog's delete
      does not cascade) is listed with the fallback label; one whose
      resource is still stored shows its name. */
  lemma ResourceLabelAfterDelete(id: ObjectId, r: Reservation, users: map<ObjectId, User>, resources: map<ObjectId, Resource>)
    requires forall k :: k in resources ==> ValidResource(resources[k])
    ensures r.resource !in resources ==> ResourceLabel(RowFromServer(id, RC.PopulateAdmin(r, users, resources))) == DeletedResource
    ensures r.resource in resources ==> ResourceLabel(RowFromServer(id, RC.PopulateAdmin(r, users, resources))) == resources[r.resource].name
  {
    if r.resource in resources {
      assert ValidResource(resources[r.resource]);
    }
  }

  /** Likewise for a reservation whose user is gone. */
  lemma UserLabelAfterDelete(id: ObjectId, r: Reservation, users: map<ObjectId, User>, resources: map<ObjectId, Resource>)
    requires forall k :: k in users ==> users[k].name != ""
    ensures r.user !in users ==> UserLabel(RowFromServer(id, RC.PopulateAdmin(r, users, resources))) == DeletedUser
    ensures r.user in users ==> UserLabel(RowFromServer(id, RC.PopulateAdmin(r, users, resources))) == users[r.user].name
  {
  }

  /** What the page renders. */
  datatype View = Loading | Empty(message: string) | Table(rows: seq<Row>, userLabels: seq<string>, resourceLabels: seq<string>)

  /** `!reservations || reservations.length === 0` shows the message. */
  function Render(reservations: Option<seq<Row>>, loading: bool): (v: View)
    ensures loading ==> v == Loading
    ensures !loading && (reservations.None? || reservations.value == []) ==> v == Empty(NoReservationsMessage)
    ensures !loading && reservations.Some? && reservations.value != [] ==> v.Table?
    ensures v.Table? ==> && reservations.Some? && v.rows == reservations.value
                         && |v.userLabels| == |v.rows| && |v.resourceLabels| == |v.rows|
                         && forall k :: 0 <= k < |v.rows| ==> v.userLabels[k] == UserLabel(v.rows[k]) && v.resourceLabels[k] == ResourceLabel(v.rows[k])
  {
    if loading then Loading
    else if reservations.None? || |reservations.value| == 0 then Empty(NoReservationsMessage)
    else
      var rows := reservations.value;
      Table(rows, seq(|rows|, k requires 0 <= k < |rows| => UserLabel(rows[k])),
                  seq(|rows|, k requires 0 <= k < |rows| => ResourceLabel(rows[k])))
  }

  /** The status request: its URL and its body's status. */
  datatype StatusRequest = StatusRequest(url: string, status: string)

  /** The page's state. */
  class Page {
    var reservations: Option<seq<Row>>
    var loading: bool

    constructor ()
      ensures reservations == Some([]) && loading
    {
      reservations := Some([]);
      loading := true;
    }

    /** fetchReservations: loading is raised, the response replaces the
        table (a failed request keeps it), and loading ends. */
    method FetchReservations(response: Fetch<Option<seq<Row>>>)
      modifies this
      ensures reservations == (if response.Fetched? then response.data else old(reservations))
      ensures !loading
    {
      loading := true;
      if response.Fetched? {
        reservations := response.data;
      }
      loading := false;
    }

    /** handleStatusChange: sends the reservation's id and the chosen
        status; on success the table is fetched again (`refetch` is that
        second response), on failure it stays as it was. */
    method HandleStatusChange(id: string, newStatus: string, updated: bool, refetch: Fetch<Option<seq<Row>>>)
      returns (request: StatusRequest)
      modifies this
      ensures request == StatusRequest("/api/reservations/" + id + "/status", newStatus)
      ensures updated ==> reservations == (if refetch.Fetched? then refetch.data else old(reservations)) && !loading
      ensures !updated ==> reservations == old(reservations) && loading == old(loading)
    {
      request := StatusRequest("/api/reservations/" + id + "/status", newStatus);
      if updated {
        FetchReservations(refetch);
      }
    }
  }
}
