/** The booking engine: the conflict query, creation of pending
    reservations, the caller's and the administrator's listings, the
    administrator's status overwrite and the owner's delete. */
module ReservationController {
  import opened Common
  import opened ReservationModel
  import opened UserModel
  import opened ResourceModel

  /** The body of a booking request; the instants are already parsed. */
  datatype ReservationRequest = ReservationRequest(resourceId: string, startTime: int, endTime: int)

  const PastMessage := "Cannot make a reservation in the past"
  const OrderMessage := "End time must be after start time"
  const BookedMessage := "Resource is already booked for this time period"
  const NotFoundMessage := "Reservation not found"
  const NotAuthorizedMessage := "User not authorized"
  const CancelledMessage := "Reservation cancelled successfully"
  const ServerErrorMessage := "Server Error"

  /** Only pending and confirmed reservations take part in the conflict query. */
  predicate IsActive(s: Status) {
    s == Pending || s == Confirmed
  }

  /** The query's window test: the stored window starts before the
      requested end and ends after the requested start. */
  predicate Overlaps(r: Reservation, startTime: int, endTime: int) {
    r.startTime < endTime && r.endTime > startTime
  }

  predicate Blocks(r: Reservation, resource: ObjectId, startTime: int, endTime: int) {
    r.resource == resource && IsActive(r.status) && Overlaps(r, startTime, endTime)
  }

  /** Some stored reservation matches the conflict query. */
  predicate HasConflict(records: map<ObjectId, Reservation>, resource: ObjectId, startTime: int, endTime: int) {
    exists id :: id in records && Blocks(records[id], resource, startTime, endTime)
  }

  /** No two active reservations of one resource overlap. */
  ghost predicate NoDoubleBooking(records: map<ObjectId, Reservation>) {
    forall a, b :: a in records && b in records && a != b && records[a].resource == records[b].resource
                   && IsActive(records[a].status) && IsActive(records[b].status)
                   ==> !Overlaps(records[a], records[b].startTime, records[b].endTime)
  }

  /** The resource fields `populate('resource', 'name type hourlyRate')` joins. */
  datatype ResourceSummary = ResourceSummary(id: ObjectId, name: string, kind: ResourceType, hourlyRate: real)

  /** The user fields `populate('user', 'name email')` joins. */
  datatype UserSummary = UserSummary(id: ObjectId, name: string, email: string)

  /** The resource field `populate('resource', 'name')` joins. */
  datatype ResourceLabel = ResourceLabel(id: ObjectId, name: string)

  /** A row of the caller's listing; a reference to a missing resource
      populates to null. */
  datatype MyReservationRow = MyReservationRow(resource: Option<ResourceSummary>, startTime: int, endTime: int, status: Status)

  /** A row of the administrator's listing. */
  datatype AdminReservationRow = AdminReservationRow(user: Option<UserSummary>, resource: Option<ResourceLabel>,
                                                     startTime: int, endTime: int, status: Status)

  function PopulateMine(r: Reservation, resources: map<ObjectId, Resource>): (row: MyReservationRow)
    ensures row.resource.Some? <==> r.resource in resources
    ensures row.resource.Some? ==> && row.resource.value.id == r.resource
                                   && row.resource.value.name == resources[r.resource].name
                                   && row.resource.value.kind == resources[r.resource].kind
                                   && row.resource.value.hourlyRate == resources[r.resource].hourlyRate
    ensures row.startTime == r.startTime && row.endTime == r.endTime && row.status == r.status
  {
    var joined := if r.resource in resources
                  then Some(ResourceSummary(r.resource, resources[r.resource].name, resources[r.resource].kind, resources[r.resource].hourlyRate))
                  else None;
    MyReservationRow(joined, r.startTime, r.endTime, r.status)
  }

  function PopulateAdmin(r: Reservation, users: map<ObjectId, User>, resources: map<ObjectId, Resource>): (row: AdminReservationRow)
    ensures row.user.Some? <==> r.user in users
    ensures row.user.Some? ==> && row.user.value.id == r.user && row.user.value.name == users[r.user].name
                               && row.user.value.email == users[r.user].email
    ensures row.resource.Some? <==> r.resource in resources
    ensures row.resource.Some? ==> row.resource.value.id == r.resource && row.resource.value.name == resources[r.resource].name
    ensures row.startTime == r.startTime && row.endTime == r.endTime && row.status == r.status
  {
    var user := if r.user in users then Some(UserSummary(r.user, users[r.user].name, users[r.user].email)) else None;
    var resource := if r.resource in resources then Some(ResourceLabel(r.resource, resources[r.resource].name)) else None;
    AdminReservationRow(user, resource, r.startTime, r.endTime, r.status)
  }

  class ReservationStore {
    var records: map<ObjectId, Reservation>

    /** Stored ids and the references they hold print canonically, and every stored window is ordered
        (the controller's checks, not the schema, keep the latter). */
    ghost predicate Valid()
      reads this
    {
      forall id :: id in records ==> && IsCanonicalId(id) && IsCanonicalId(records[id].user)
                                     && IsCanonicalId(records[id].resource) && records[id].startTime < records[id].endTime
    }

    constructor ()
      ensures Valid() && records == map[]
    {
      records := map[];
    }

    /** `Reservation.findOne` with the conflict filter. */
    method FindConflict(resource: ObjectId, startTime: int, endTime: int) returns (found: Option<ObjectId>)
      ensures found.Some? ==> found.value in records && Blocks(records[found.value], resource, startTime, endTime)
      ensures found.None? <==> !HasConflict(records, resource, startTime, endTime)
    {
      if exists id :: id in records && Blocks(records[id], resource, startTime, endTime) {
        var id :| id in records && Blocks(records[id], resource, startTime, endTime);
        found := Some(id);
      } else {
        found := None;
      }
    }

    /** createReservation. `now` is the server clock; `freshId` is the id
        the new document receives. The resource's existence is not checked. */
    method CreateReservation(caller: Principal, req: ReservationRequest, now: int, freshId: ObjectId)
      returns (resp: Response<Doc<Reservation>>)
      requires Valid()
      requires IsCanonicalId(freshId) && freshId !in records
      modifies this
      ensures Valid()
      ensures req.startTime < now ==>
                resp == Failure(400, PastMessage) && records == old(records)
      ensures now <= req.startTime && req.endTime <= req.startTime ==>
                resp == Failure(400, OrderMessage) && records == old(records)
      ensures now <= req.startTime < req.endTime && !IsObjectId(req.resourceId) ==>
                resp == Failure(500, ServerErrorMessage) && records == old(records)
      ensures now <= req.startTime < req.endTime && IsObjectId(req.resourceId)
              && HasConflict(old(records), Canonical(req.resourceId), req.startTime, req.endTime) ==>
                resp == Failure(400, BookedMessage) && records == old(records)
      ensures now <= req.startTime < req.endTime && IsObjectId(req.resourceId)
              && !HasConflict(old(records), Canonical(req.resourceId), req.startTime, req.endTime) && !IsObjectId(caller.id) ==>
                resp == Failure(500, ServerErrorMessage) && records == old(records)
      ensures now <= req.startTime < req.endTime && IsObjectId(req.resourceId)
              && !HasConflict(old(records), Canonical(req.resourceId), req.startTime, req.endTime) && IsObjectId(caller.id) ==>
                var created := Reservation(Canonical(caller.id), Canonical(req.resourceId), req.startTime, req.endTime, Pending);
                resp == Success(201, Doc(freshId, created)) && records == old(records)[freshId := created]
      ensures NoDoubleBooking(old(records)) ==> NoDoubleBooking(records)
      ensures resp.Success? ==> IsObjectId(resp.value.id) && Canonical(resp.value.id) in records
    {
      CanonicalOfCanonical(freshId);
      if req.startTime < now {
        return Failure(400, PastMessage);
      }
      if req.endTime <= req.startTime {
        return Failure(400, OrderMessage);
      }
      // The filter casts the resource id; a malformed one throws.
      if !IsObjectId(req.resourceId) {
        return Failure(500, ServerErrorMessage);
      }
      var existing := FindConflict(Canonical(req.resourceId), req.startTime, req.endTime);
      if existing.Some? {
        return Failure(400, BookedMessage);
      }
      var doc := NewReservation(caller.id, req.resourceId, Some(req.startTime), Some(req.endTime), None);
      if doc.None? {
        return Failure(500, ServerErrorMessage);
      }
      ghost var wasDisjoint := NoDoubleBooking(records);
      if wasDisjoint {
        InsertKeepsNoDoubleBooking(records, freshId, doc.value);
      }
      records := records[freshId := doc.value];
      resp := Success(201, Doc(freshId, doc.value));
    }

    /** getMyReservations: the caller's reservations, joined with their
        resources. */
    method GetMyReservations(caller: Principal, resources: map<ObjectId, Resource>)
      returns (resp: Response<map<ObjectId, MyReservationRow>>)
      ensures !IsObjectId(caller.id) ==> resp == Failure(500, ServerErrorMessage)
      ensures IsObjectId(caller.id) ==> resp.Success? && resp.code == 200
      ensures resp.Success? ==>
                && (forall id :: id in resp.value <==> id in records && records[id].user == Canonical(caller.id))
                && (forall id :: id in resp.value ==> resp.value[id] == PopulateMine(records[id], resources))
    {
      if !IsObjectId(caller.id) {
        return Failure(500, ServerErrorMessage);
      }
      var owner := Canonical(caller.id);
      var rows := map id | id in records && records[id].user == owner :: PopulateMine(records[id], resources);
      resp := Success(200, rows);
    }

    /** getAllReservations: every reservation, joined with its user and its
        resource; a missing one populates to null. */
    method GetAllReservations(users: map<ObjectId, User>, resources: map<ObjectId, Resource>)
      returns (resp: Response<map<ObjectId, AdminReservationRow>>)
      ensures resp.Success? && resp.code == 200
      ensures resp.value.Keys == records.Keys
      ensures forall id :: id in resp.value ==> resp.value[id] == PopulateAdmin(records[id], users, resources)
    {
      var rows := map id | id in records :: PopulateAdmin(records[id], users, resources);
      resp := Success(200, rows);
    }

    /** updateReservationStatus: `status = body.status || status`, then save.
        There is no transition guard and no second conflict query. */
    method UpdateReservationStatus(id: string, status: Option<string>) returns (resp: Response<Doc<Reservation>>)
      requires Valid()
      modifies this
      ensures Valid()
      ensures !IsObjectId(id) ==> resp == Failure(500, ServerErrorMessage) && records == old(records)
      ensures IsObjectId(id) && Canonical(id) !in old(records) ==>
                resp == Failure(404, NotFoundMessage) && records == old(records)
      ensures IsObjectId(id) && Canonical(id) in old(records) && TruthyString(status) && ParseStatus(status.value).None? ==>
                resp == Failure(500, ServerErrorMessage) && records == old(records)
      ensures IsObjectId(id) && Canonical(id) in old(records) && !TruthyString(status) ==>
                resp == Success(200, Doc(Canonical(id), old(records)[Canonical(id)])) && records == old(records)
      ensures IsObjectId(id) && Canonical(id) in old(records) && TruthyString(status) && ParseStatus(status.value).Some? ==>
                var updated := old(records)[Canonical(id)].(status := ParseStatus(status.value).value);
                resp == Success(200, Doc(Canonical(id), updated)) && records == old(records)[Canonical(id) := updated]
    {
      if !IsObjectId(id) {
        return Failure(500, ServerErrorMessage);
      }
      var key := Canonical(id);
      if key !in records {
        return Failure(404, NotFoundMessage);
      }
      var reservation := records[key];
      if TruthyString(status) {
        // Saving validates the enum; a value outside it throws.
        var parsed := ParseStatus(status.value);
        if parsed.None? {
          return Failure(500, ServerErrorMessage);
        }
        reservation := reservation.(status := parsed.value);
      }
      records := records[key := reservation];
      resp := Success(200, Doc(key, reservation));
    }

    /** deleteReservation: only the owner may delete, whatever the status. */
    method DeleteReservation(caller: Principal, id: string) returns (resp: Response<string>)
      requires Valid()
      modifies this
      ensures Valid()
      ensures !IsObjectId(id) ==> resp == Failure(500, ServerErrorMessage) && records == old(records)
      ensures IsObjectId(id) && Canonical(id) !in old(records) ==>
                resp == Failure(404, NotFoundMessage) && records == old(records)
      ensures IsObjectId(id) && Canonical(id) in old(records) && old(records)[Canonical(id)].user != caller.id ==>
                resp == Failure(401, NotAuthorizedMessage) && records == old(records)
      ensures IsObjectId(id) && Canonical(id) in old(records) && old(records)[Canonical(id)].user == caller.id ==>
                resp == Success(200, CancelledMessage) && records == old(records) - {Canonical(id)}
      ensures NoDoubleBooking(old(records)) ==> NoDoubleBooking(records)
    {
      if !IsObjectId(id) {
        return Failure(500, ServerErrorMessage);
      }
      var key := Canonical(id);
      if key !in records {
        return Failure(404, NotFoundMessage);
      }
      // The stored ObjectId printed as text against the token's id.
      if records[key].user != caller.id {
        return Failure(401, NotAuthorizedMessage);
      }
      records := records - {key};
      resp := Success(200, CancelledMessage);
    }
  }

  /** The window test is symmetric: it does not matter which window is the
      stored one. */
  lemma OverlapsSymmetric(a: Reservation, b: Reservation)
    ensures Overlaps(a, b.startTime, b.endTime) <==> Overlaps(b, a.startTime, a.endTime)
  {
  }

  /** The half-open interval [startTime, endTime) holds the instant t. */
  predicate Contains(startTime: int, endTime: int, t: int) {
    startTime <= t < endTime
  }

  /** For ordered windows the test is exactly the intersection of the
      half-open intervals [start, end): they overlap iff some instant lies
      in both. */
  lemma OverlapsIffSharedInstant(r: Reservation, startTime: int, endTime: int)
    requires r.startTime < r.endTime && startTime < endTime
    ensures Overlaps(r, startTime, endTime) <==>
            exists t :: Contains(r.startTime, r.endTime, t) && Contains(startTime, endTime, t)
  {
    if Overlaps(r, startTime, endTime) {
      var t := if r.startTime < startTime then startTime else r.startTime;
      assert Contains(r.startTime, r.endTime, t) && Contains(startTime, endTime, t);
    }
  }

  /** Windows that only touch do not conflict. */
  lemma TouchingWindowsDoNotConflict(r: Reservation, startTime: int, endTime: int)
    requires r.endTime == startTime || r.startTime == endTime
    ensures !Overlaps(r, startTime, endTime)
  {
  }

  /** Rejected and completed reservations never block a booking. */
  lemma InactiveNeverBlocks(r: Reservation, resource: ObjectId, startTime: int, endTime: int)
    requires r.status == Rejected || r.status == Completed
    ensures !Blocks(r, resource, startTime, endTime)
  {
  }

  /** Inserting a reservation the conflict query lets through keeps the
      active reservations of every resource pairwise disjoint. */
  lemma InsertKeepsNoDoubleBooking(records: map<ObjectId, Reservation>, id: ObjectId, r: Reservation)
    requires NoDoubleBooking(records) && id !in records
    requires !HasConflict(records, r.resource, r.startTime, r.endTime)
    ensures NoDoubleBooking(records[id := r])
  {
    var next := records[id := r];
    forall a, b | a in next && b in next && a != b && next[a].resource == next[b].resource
                  && IsActive(next[a].status) && IsActive(next[b].status)
      ensures !Overlaps(next[a], next[b].startTime, next[b].endTime)
    {
      if a == id {
        assert !Blocks(records[b], r.resource, r.startTime, r.endTime);
      } else if b == id {
        assert !Blocks(records[a], r.resource, r.startTime, r.endTime);
      }
    }
  }

  /** Moving a reservation out of the active set is always safe. */
  lemma DeactivationKeepsNoDoubleBooking(records: map<ObjectId, Reservation>, id: ObjectId, s: Status)
    requires NoDoubleBooking(records) && id in records && !IsActive(s)
    ensures NoDoubleBooking(records[id := records[id].(status := s)])
  {
  }

  /** Moving an inactive reservation back into the active set can double
      book, since the status update runs no conflict query. */
  lemma ReactivationCanDoubleBook(records: map<ObjectId, Reservation>, a: ObjectId, b: ObjectId, s: Status)
    requires a in records && b in records && a != b
    requires records[a].resource == records[b].resource && IsActive(records[b].status)
    requires Overlaps(records[a], records[b].startTime, records[b].endTime) && IsActive(s)
    ensures !NoDoubleBooking(records[a := records[a].(status := s)])
  {
    var next := records[a := records[a].(status := s)];
    assert next[a].resource == next[b].resource && IsActive(next[a].status) && IsActive(next[b].status);
  }
}
