/** The resource router: reading the catalog is public, changing it is for
    administrators. */
module ResourceRoutes {
  import opened Common
  import opened Router

  datatype Handler = CreateResource | GetResources | GetResourceById | UpdateResource | DeleteResource

  /** The registrations, in the order the router file makes them. */
  const Table: seq<Layer<Handler>> := [
    Layer([], GET, [], GetResources),
    Layer([], POST, [Protect, IsAdmin], CreateResource),
    Layer([Param("id")], GET, [], GetResourceById),
    Layer([Param("id")], PUT, [Protect, IsAdmin], UpdateResource),
    Layer([Param("id")], DELETE, [Protect, IsAdmin], DeleteResource)
  ]

  /** Listing and fetching need no authentication. */
  lemma ReadsArePublic(id: string)
    requires id != ""
    ensures Dispatch(Table, GET, []) == Some(Match(GetResources, [], map[]))
    ensures Dispatch(Table, GET, [id]) == Some(Match(GetResourceById, [], map["id" := id]))
  {
    BindOneParam("id", id);
    assert LayerMatches(Table[0], GET, []);
    assert forall i :: 0 <= i < 2 ==> !LayerMatches(Table[i], GET, [id]);
    assert LayerMatches(Table[2], GET, [id]);
  }

  /** Creating, updating and deleting run protect and then isAdmin. */
  lemma WritesNeedAdmin(id: string)
    requires id != ""
    ensures Dispatch(Table, POST, []) == Some(Match(CreateResource, [Protect, IsAdmin], map[]))
    ensures Dispatch(Table, PUT, [id]) == Some(Match(UpdateResource, [Protect, IsAdmin], map["id" := id]))
    ensures Dispatch(Table, DELETE, [id]) == Some(Match(DeleteResource, [Protect, IsAdmin], map["id" := id]))
  {
    BindOneParam("id", id);
    assert !LayerMatches(Table[0], POST, []) && LayerMatches(Table[1], POST, []);
    assert forall i :: 0 <= i < 3 ==> !LayerMatches(Table[i], PUT, [id]);
    assert LayerMatches(Table[3], PUT, [id]);
    assert forall i :: 0 <= i < 4 ==> !LayerMatches(Table[i], DELETE, [id]);
    assert LayerMatches(Table[4], DELETE, [id]);
  }

  /** Every administrator-only handler sits behind protect, so isAdmin
      never runs for an unauthenticated caller. */
  lemma AdminRoutesBehindProtect()
    ensures forall i :: 0 <= i < |Table| ==> AdminAfterProtect(Table[i].chain)
  {
    assert AdminAfterProtect([Protect, IsAdmin]) by {
      assert [Protect, IsAdmin][0] == Protect;
    }
  }

  /** There is no `/all-for-admin` registration: the path binds as an id
      of the public fetch, and since it is no ObjectId the cast fails and
      the handler answers with a server error. */
  lemma AllForAdminReachesGetById()
    ensures Dispatch(Table, GET, ["all-for-admin"]) == Some(Match(GetResourceById, [], map["id" := "all-for-admin"]))
    ensures !IsObjectId("all-for-admin")
  {
    ReadsArePublic("all-for-admin");
  }

  /** Whatever route a request reaches, an unauthenticated caller is turned
      away before any isAdmin runs. */
  lemma UnauthenticatedNeverRunsIsAdmin(verb: Verb, path: seq<string>)
    ensures Dispatch(Table, verb, path).Some? ==>
              var chain := Dispatch(Table, verb, path).value.chain;
              forall k :: 0 <= k < Executed(chain, None) ==> chain[k] != IsAdmin
  {
    AdminRoutesBehindProtect();
    DispatchNeverRunsIsAdminUnauthenticated(Table, verb, path);
  }
}
