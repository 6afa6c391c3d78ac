/** The user's reservation list: which entries offer Cancel, what a cancel
    does to the list, and what the page shows. */
module MyReservationsPage {
  import opened Common
  import opened ReservationModel
  import opened ResourceModel
  import RC = ReservationController
  import AdminReservationsPage

  /** One entry of the list as the page receives it; `resourceName` is
      None when the populated resource arrived null. */
  datatype Entry = Entry(id: string, resourceName: Option<string>, startTime: int, endTime: int, status: string)

  const NoReservationsMessage := "You have no reservations."

  /** The JSON the caller's listing sends for one reservation. */
  function EntryFromServer(id: ObjectId, row: RC.MyReservationRow): Entry {
    Entry(id, if row.resource.Some? then Some(row.resource.value.name) else None,
          row.startTime, row.endTime, StatusName(row.status))
  }

  /** A reservation whose resource is no longer stored (the catalog's delete
      does not cascade) reaches the page with a null resource. */
  lemma DeletedResourceArrivesNull(id: ObjectId, r: Reservation, resources: map<ObjectId, Resource>)
    requires r.resource !in resources
    ensures EntryFromServer(id, RC.PopulateMine(r, resources)).resourceName.None?
    ensures EntryFromServer(id, RC.PopulateMine(r, resources)).status == StatusName(r.status)
  {
  }

  /** The heading as written: `res.resource.name`, which throws on a null
      resource (None). */
  function HeadingAsWritten(e: Entry): (h: Option<string>)
    ensures h.None? <==> e.resourceName.None?
    ensures h.Some? ==> h.value == e.resourceName.value
  {
    e.resourceName
  }

  /** The heading with the fallback the administrator's table uses. */
  function Heading(e: Entry): (h: string)
    ensures h != ""
    ensures e.resourceName.Some? && e.resourceName.value != "" ==> h == e.resourceName.value
    ensures e.resourceName.None? ==> h == AdminReservationsPage.DeletedResource
    ensures e.resourceName == Some("") ==> h == AdminReservationsPage.DeletedResource
  {
    if e.resourceName.Some? && e.resourceName.value != "" then e.resourceName.value else AdminReservationsPage.DeletedResource
  }

  /** The Cancel button is offered iff the status is pending or confirmed. */
  predicate CancelOffered(status: string)
    ensures CancelOffered(status) <==> ParseStatus(status).Some? && RC.IsActive(ParseStatus(status).value)
  {
    status == "pending" || status == "confirmed"
  }

  /** `prev.filter(res => res._id !== id)`. */
  function RemoveById(list: seq<Entry>, id: string): (r: seq<Entry>)
    ensures |r| <= |list|
    ensures forall k :: 0 <= k < |r| ==> r[k].id != id
  {
    if list == [] then []
    else (if list[0].id != id then [list[0]] else []) + RemoveById(list[1..], id)
  }

  /** What survives is exactly the entries with another id. */
  lemma {:induction false} RemoveByIdMembers(list: seq<Entry>, id: string, e: Entry)
    ensures e in RemoveById(list, id) <==> e in list && e.id != id
  {
    if list != [] {
      RemoveByIdMembers(list[1..], id, e);
      assert list == [list[0]] + list[1..];
    }
  }

  /** Filtering distributes over concatenation, so the survivors keep
      their order. */
  lemma {:induction false} RemoveByIdAppend(a: seq<Entry>, b: seq<Entry>, id: string)
    ensures RemoveById(a + b, id) == RemoveById(a, id) + RemoveById(b, id)
  {
    if a == [] {
      assert a + b == b;
    } else {
      assert (a + b)[0] == a[0];
      assert (a + b)[1..] == a[1..] + b;
      RemoveByIdAppend(a[1..], b, id);
    }
  }

  /** A list without that id is left as it is. */
  lemma {:induction false} RemoveByIdAbsent(list: seq<Entry>, id: string)
    requires forall k :: 0 <= k < |list| ==> list[k].id != id
    ensures RemoveById(list, id) == list
  {
    if list != [] {
      RemoveByIdAbsent(list[1..], id);
    }
  }

  /** What the page renders. */
  datatype View = Loading | Empty(message: string) | Listing(entries: seq<Entry>, headings: seq<string>, cancellable: seq<bool>)

  /** The render as written: the list throws (None) as soon as one entry's
      resource is null. */
  function RenderAsWritten(reservations: seq<Entry>, loading: bool): (v: Option<View>)
    ensures v.None? <==> !loading && exists k :: 0 <= k < |reservations| && reservations[k].resourceName.None?
  {
    if loading then Some(Loading)
    else if |reservations| == 0 then Some(Empty(NoReservationsMessage))
    else if exists k :: 0 <= k < |reservations| && reservations[k].resourceName.None? then None
    else Some(Listing(reservations, seq(|reservations|, k requires 0 <= k < |reservations| => HeadingAsWritten(reservations[k]).value),
                      seq(|reservations|, k requires 0 <= k < |reservations| => CancelOffered(reservations[k].status))))
  }

  /** Deleting a resource breaks the listing of everyone who booked it. */
  lemma DeletedResourceBreaksListing(id: ObjectId, r: Reservation, resources: map<ObjectId, Resource>)
    requires r.resource !in resources
    ensures RenderAsWritten([EntryFromServer(id, RC.PopulateMine(r, resources))], false).None?
  {
    var e := EntryFromServer(id, RC.PopulateMine(r, resources));
    assert [e][0].resourceName.None?;
  }

  /** The render with the fallback heading: it always produces a view, and
      where the render as written succeeds it shows the same headings. */
  function Render(reservations: seq<Entry>, loading: bool): (v: View)
    ensures loading ==> v == Loading
    ensures !loading && reservations == [] ==> v == Empty(NoReservationsMessage)
    ensures !loading && reservations != [] ==> v.Listing?
    ensures v.Listing? ==> && v.entries == reservations && |v.headings| == |reservations| && |v.cancellable| == |reservations|
                           && forall k :: 0 <= k < |reservations| ==>
                                v.headings[k] == Heading(reservations[k]) && v.cancellable[k] == CancelOffered(reservations[k].status)
  {
    if loading then Loading
    else if |reservations| == 0 then Empty(NoReservationsMessage)
    else Listing(reservations, seq(|reservations|, k requires 0 <= k < |reservations| => Heading(reservations[k])),
                 seq(|reservations|, k requires 0 <= k < |reservations| => CancelOffered(reservations[k].status)))
  }

  /** The corrected render agrees with the render as written wherever that
      one does not throw and every name is non-empty. */
  lemma RenderAgreesWhereWrittenSucceeds(reservations: seq<Entry>, loading: bool)
    requires RenderAsWritten(reservations, loading).Some?
    requires forall k :: 0 <= k < |reservations| ==> reservations[k].resourceName != Some("")
    ensures RenderAsWritten(reservations, loading) == Some(Render(reservations, loading))
  {
    if !loading && |reservations| > 0 {
      var a := RenderAsWritten(reservations, loading).value;
      var b := Render(reservations, loading);
      assert a.headings == b.headings;
    }
  }

  /** The page's state. */
  class Page {
    var reservations: seq<Entry>
    var loading: bool

    constructor ()
      ensures reservations == [] && loading
    {
      reservations := [];
      loading := true;
    }

    /** fetchReservations: the response replaces the list; a failed request
        keeps it; either way loading ends. */
    method FetchReservations(response: Fetch<seq<Entry>>)
      modifies this
      ensures reservations == (if response.Fetched? then response.data else old(reservations))
      ensures !loading
    {
      if response.Fetched? {
        reservations := response.data;
      }
      loading := false;
    }

    /** handleCancel. `confirmed` is what `window.confirm` returned and
        `deleted` whether the DELETE request succeeded; the result is the
        request issued, if any. */
    method HandleCancel(id: string, confirmed: bool, deleted: bool) returns (request: Option<string>)
      modifies this
      ensures request == if confirmed then Some("/api/reservations/" + id) else None
      ensures reservations == if confirmed && deleted then RemoveById(old(reservations), id) else old(reservations)
      ensures loading == old(loading)
    {
      request := None;
      if confirmed {
        request := Some("/api/reservations/" + id);
        if deleted {
          reservations := RemoveById(reservations, id);
        }
      }
    }
  }
}
