/** The resource catalog: create, list, fetch by id, the truthy-merge
    update and delete. Deleting a resource does not touch reservations. */
module ResourceController {
  import opened Common
  import opened ResourceModel

  /** The fields a create or update request may carry. Only the first five
      are read; `description` and `publishStatus` are there so the model can
      say that they are dropped. */
  datatype ResourceBody = ResourceBody(name: Option<string>, kind: Option<string>, details: Option<DetailsInput>,
                                       status: Option<string>, hourlyRate: Option<real>,
                                       description: Option<string>, publishStatus: Option<string>)

  const NotFoundMessage := "Resource not found"
  const RemovedMessage := "Resource removed"
  const ServerErrorMessage := "Server Error"

  /** The document createResource builds from the five fields it reads. */
  function ResourceFromBody(body: ResourceBody): (r: Option<Resource>)
    ensures r.Some? ==> ValidResource(r.value)
    ensures r.Some? <==> NewResource(body.name, body.kind, body.details, body.status, body.hourlyRate).Some?
    ensures r.Some? ==> && r.value.name == Trim(body.name.value) && TypeName(r.value.kind) == body.kind.value
                        && DetailsAsInput(r.value.details) == body.details.value && r.value.hourlyRate == body.hourlyRate.value
    ensures r.Some? && body.status.None? ==> r.value.status == Available
    ensures r.Some? && body.status.Some? ==> ResourceStatusName(r.value.status) == body.status.value
  {
    var r := NewResource(body.name, body.kind, body.details, body.status, body.hourlyRate);
    if r.Some? then NewResourceValid(body.name, body.kind, body.details, body.status, body.hourlyRate); r else r
  }

  /** Fields outside the five never reach the stored record. */
  lemma CreateIgnoresOtherFields(a: ResourceBody, b: ResourceBody)
    requires a.name == b.name && a.kind == b.kind && a.details == b.details
    requires a.status == b.status && a.hourlyRate == b.hourlyRate
    ensures ResourceFromBody(a) == ResourceFromBody(b)
  {
  }

  /** updateResource's five `field = body.field || field` assignments,
      followed by the validation that `save` runs. A supplied `details`
      object is truthy even when empty, so it replaces the stored one
      whole. */
  function MergeUpdate(r: Resource, body: ResourceBody): (m: Option<Resource>)
    requires ValidResource(r)
    ensures m.Some? ==> ValidResource(m.value)
  {
    var name := if TruthyString(body.name) then body.name.value else r.name;
    var kind := if TruthyString(body.kind) then body.kind.value else TypeName(r.kind);
    var details := if body.details.Some? then body.details.value else DetailsAsInput(r.details);
    var status := if TruthyString(body.status) then body.status.value else ResourceStatusName(r.status);
    var rate := if TruthyNumber(body.hourlyRate) then body.hourlyRate.value else r.hourlyRate;
    var m := NewResource(Some(name), Some(kind), Some(details), Some(status), Some(rate));
    if m.Some? then NewResourceValid(Some(name), Some(kind), Some(details), Some(status), Some(rate)); m else m
  }

  /** The update fails validation exactly when a truthy field carries a
      value the schema refuses; stored values always pass again. */
  lemma MergeUpdateFailsIff(r: Resource, body: ResourceBody)
    requires ValidResource(r)
    ensures MergeUpdate(r, body).None? <==>
              || (TruthyString(body.name) && Trim(body.name.value) == "")
              || (TruthyString(body.kind) && ParseType(body.kind.value).None?)
              || (body.details.Some? && CastDetails(body.details.value).None?)
              || (TruthyString(body.status) && ParseResourceStatus(body.status.value).None?)
  {
    TrimmedIsFixed(r.name);
  }

  /** Each of the five fields takes the supplied value exactly when that
      value is truthy, and otherwise keeps the stored one. */
  lemma MergeUpdateFields(r: Resource, body: ResourceBody)
    requires ValidResource(r) && MergeUpdate(r, body).Some?
    ensures var m := MergeUpdate(r, body).value;
            && m.name == (if TruthyString(body.name) then Trim(body.name.value) else r.name)
            && (if TruthyString(body.kind) then TypeName(m.kind) == body.kind.value else m.kind == r.kind)
            && (if body.details.Some? then DetailsAsInput(m.details) == body.details.value else m.details == r.details)
            && (if TruthyString(body.status) then ResourceStatusName(m.status) == body.status.value else m.status == r.status)
            && m.hourlyRate == (if TruthyNumber(body.hourlyRate) then body.hourlyRate.value else r.hourlyRate)
  {
    TrimmedIsFixed(r.name);
    var m := MergeUpdate(r, body).value;
    if body.details.None? {
      assert DetailsAsInput(m.details) == DetailsAsInput(r.details);
    }
  }

  /** Applying the same update twice equals applying it once. */
  lemma UpdateIdempotent(r: Resource, body: ResourceBody)
    requires ValidResource(r) && MergeUpdate(r, body).Some?
    ensures MergeUpdate(MergeUpdate(r, body).value, body) == MergeUpdate(r, body)
  {
    var once := MergeUpdate(r, body).value;
    var twice := MergeUpdate(once, body);
    if TruthyString(body.name) {
      TrimIdempotent(body.name.value);
    }
    assert twice.Some?;
    assert twice.value == once;
  }

  /** A body whose five fields are all falsy changes nothing. */
  lemma FalsyUpdateKeeps(r: Resource, body: ResourceBody)
    requires ValidResource(r)
    requires !TruthyString(body.name) && !TruthyString(body.kind) && body.details.None?
    requires !TruthyString(body.status) && !TruthyNumber(body.hourlyRate)
    ensures MergeUpdate(r, body) == Some(r)
  {
    assert MergeUpdate(r, body).value == r;
  }

  /** An update can never set the rate to zero, nor the name to "". */
  lemma UpdateNeverWritesFalsy(r: Resource, body: ResourceBody)
    requires ValidResource(r) && MergeUpdate(r, body).Some?
    ensures MergeUpdate(r, body).value.hourlyRate == 0.0 ==> r.hourlyRate == 0.0
    ensures MergeUpdate(r, body).value.name != ""
  {
  }

  class ResourceCatalog {
    var resources: map<ObjectId, Resource>

    /** Stored ids print canonically and every record passed validation. */
    ghost predicate Valid()
      reads this
    {
      forall id :: id in resources ==> IsCanonicalId(id) && ValidResource(resources[id])
    }

    constructor ()
      ensures Valid() && resources == map[]
    {
      resources := map[];
    }

    /** createResource; `freshId` is the id the new document receives. A
        failed validation ends in the catch block. */
    method CreateResource(body: ResourceBody, freshId: ObjectId) returns (resp: Response<Doc<Resource>>)
      requires Valid()
      requires IsCanonicalId(freshId) && freshId !in resources
      modifies this
      ensures Valid()
      ensures ResourceFromBody(body).None? ==> resp == Failure(500, ServerErrorMessage) && resources == old(resources)
      ensures ResourceFromBody(body).Some? ==>
                && resp == Success(201, Doc(freshId, ResourceFromBody(body).value))
                && resources == old(resources)[freshId := ResourceFromBody(body).value]
      ensures resp.Success? ==> IsObjectId(resp.value.id) && Canonical(resp.value.id) in resources
    {
      CanonicalOfCanonical(freshId);
      var doc := ResourceFromBody(body);
      if doc.None? {
        return Failure(500, ServerErrorMessage);
      }
      NewResourceValid(body.name, body.kind, body.details, body.status, body.hourlyRate);
      resources := resources[freshId := doc.value];
      resp := Success(201, Doc(freshId, doc.value));
    }

    /** getResources: every stored resource, whatever its status. */
    method GetResources() returns (resp: Response<map<ObjectId, Resource>>)
      ensures resp.Success? && resp.code == 200
      ensures resp.value.Keys == resources.Keys
      ensures forall id :: id in resp.value ==> resp.value[id] == resources[id]
    {
      resp := Success(200, resources);
    }

    /** getResourceById: the record, 404 when absent, and a failed cast of
        a malformed id ending in the catch block. */
    method GetResourceById(id: string) returns (resp: Response<Doc<Resource>>)
      ensures !IsObjectId(id) ==> resp == Failure(500, ServerErrorMessage)
      ensures IsObjectId(id) && Canonical(id) !in resources ==> resp == Failure(404, NotFoundMessage)
      ensures IsObjectId(id) && Canonical(id) in resources ==>
                resp == Success(200, Doc(Canonical(id), resources[Canonical(id)]))
    {
      if !IsObjectId(id) {
        return Failure(500, ServerErrorMessage);
      }
      var key := Canonical(id);
      if key !in resources {
        return Failure(404, NotFoundMessage);
      }
      resp := Success(200, Doc(key, resources[key]));
    }

    /** updateResource. */
    method UpdateResource(id: string, body: ResourceBody) returns (resp: Response<Doc<Resource>>)
      requires Valid()
      modifies this
      ensures Valid()
      ensures !IsObjectId(id) ==> resp == Failure(500, ServerErrorMessage) && resources == old(resources)
      ensures IsObjectId(id) && Canonical(id) !in old(resources) ==>
                resp == Failure(404, NotFoundMessage) && resources == old(resources)
      ensures IsObjectId(id) && Canonical(id) in old(resources) && MergeUpdate(old(resources)[Canonical(id)], body).None? ==>
                resp == Failure(500, ServerErrorMessage) && resources == old(resources)
      ensures IsObjectId(id) && Canonical(id) in old(resources) && MergeUpdate(old(resources)[Canonical(id)], body).Some? ==>
                var updated := MergeUpdate(old(resources)[Canonical(id)], body).value;
                resp == Success(200, Doc(Canonical(id), updated)) && resources == old(resources)[Canonical(id) := updated]
    {
      if !IsObjectId(id) {
        return Failure(500, ServerErrorMessage);
      }
      var key := Canonical(id);
      if key !in resources {
        return Failure(404, NotFoundMessage);
      }
      var merged := MergeUpdate(resources[key], body);
      if merged.None? {
        return Failure(500, ServerErrorMessage);
      }
      resources := resources[key := merged.value];
      resp := Success(200, Doc(key, merged.value));
    }

    /** deleteResource: removes that one record and nothing else; no
        reservation is looked at. */
    method DeleteResource(id: string) returns (resp: Response<string>)
      requires Valid()
      modifies this
      ensures Valid()
      ensures !IsObjectId(id) ==> resp == Failure(500, ServerErrorMessage) && resources == old(resources)
      ensures IsObjectId(id) && Canonical(id) !in old(resources) ==>
                resp == Failure(404, NotFoundMessage) && resources == old(resources)
      ensures IsObjectId(id) && Canonical(id) in old(resources) ==>
                resp == Success(200, RemovedMessage) && resources == old(resources) - {Canonical(id)}
    {
      if !IsObjectId(id) {
        return Failure(500, ServerErrorMessage);
      }
      var key := Canonical(id);
      if key !in resources {
        return Failure(404, NotFoundMessage);
      }
      resources := resources - {key};
      resp := Success(200, RemovedMessage);
    }
  }
}
