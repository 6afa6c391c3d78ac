/** The reservation router: which handler each (verb, path) reaches and
    which middleware guards it. */
module ReservationRoutes {
  import opened Common
  import opened Router

  datatype Handler = CreateReservation | GetMyReservations | GetAllReservations | UpdateReservationStatus | DeleteReservation

  /** The registrations, in the order the router file makes them. */
  const Table: seq<Layer<Handler>> := [
    Layer([Lit("myreservations")], GET, [Protect], GetMyReservations),
    Layer([], GET, [Protect, IsAdmin], GetAllReservations),
    Layer([], POST, [Protect], CreateReservation),
    Layer([Param("id")], DELETE, [Protect], DeleteReservation),
    Layer([Param("id"), Lit("status")], PUT, [Protect, IsAdmin], UpdateReservationStatus)
  ]

  /** The caller's listing needs only an authenticated caller. */
  lemma MyReservationsNeedsProtect()
    ensures Dispatch(Table, GET, ["myreservations"]) == Some(Match(GetMyReservations, [Protect], map[]))
  {
    assert LayerMatches(Table[0], GET, ["myreservations"]);
  }

  /** The full listing is for administrators; booking is for any
      authenticated caller. */
  lemma RootRoutes()
    ensures Dispatch(Table, GET, []) == Some(Match(GetAllReservations, [Protect, IsAdmin], map[]))
    ensures Dispatch(Table, POST, []) == Some(Match(CreateReservation, [Protect], map[]))
  {
    assert !LayerMatches(Table[0], GET, []);
    assert LayerMatches(Table[1], GET, []);
    assert !LayerMatches(Table[0], POST, []) && !LayerMatches(Table[1], POST, []);
    assert LayerMatches(Table[2], POST, []);
  }

  /** Deleting needs only an authenticated caller; ownership is the
      handler's check. Any one segment binds as the id, `myreservations`
      included. */
  lemma DeleteNeedsProtect(id: string)
    requires id != ""
    ensures Dispatch(Table, DELETE, [id]) == Some(Match(DeleteReservation, [Protect], map["id" := id]))
  {
    assert forall i :: 0 <= i < 3 ==> !LayerMatches(Table[i], DELETE, [id]);
    assert LayerMatches(Table[3], DELETE, [id]);
  }

  /** The status overwrite is for administrators. */
  lemma StatusUpdateNeedsAdmin(id: string)
    requires id != ""
    ensures Dispatch(Table, PUT, [id, "status"]) == Some(Match(UpdateReservationStatus, [Protect, IsAdmin], map["id" := id]))
  {
    assert forall i :: 0 <= i < 4 ==> !LayerMatches(Table[i], PUT, [id, "status"]);
    assert SegmentMatches(Lit("status"), "status");
    assert LayerMatches(Table[4], PUT, [id, "status"]);
  }

  /** No registration handles `PUT /:id`: a reschedule request reaches no
      handler. */
  lemma NoRescheduleRoute(id: string)
    ensures Dispatch(Table, PUT, [id]).None?
  {
  }

  /** Every administrator-only handler sits behind protect. */
  lemma AdminRoutesBehindProtect()
    ensures forall i :: 0 <= i < |Table| ==> AdminAfterProtect(Table[i].chain)
  {
    assert AdminAfterProtect([Protect, IsAdmin]) by {
      assert [Protect, IsAdmin][0] == Protect;
    }
  }

  /** Whatever route a request reaches, an unauthenticated caller is turned
      away before any isAdmin runs. */
  lemma UnauthenticatedNeverRunsIsAdmin(verb: Verb, path: seq<string>)
    ensures Dispatch(Table, verb, path).Some? ==>
              var chain := Dispatch(Table, verb, path).value.chain;
              forall k :: 0 <= k < Executed(chain, None) ==> chain[k] != IsAdmin
  {
    AdminRoutesBehindProtect();
    DispatchNeverRunsIsAdminUnauthenticated(Table, verb, path);
  }
}
