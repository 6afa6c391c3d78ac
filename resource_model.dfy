/** The resource schema: a required name stored trimmed, a type drawn from
    VM and GPU, required vCPU, RAM and storage figures with an optional GPU
    model, a status drawn from three values that defaults to `available`,
    and a required hourly rate with no lower bound. */
module ResourceModel {
  import opened Common

  datatype ResourceType = VM | GPU

  function TypeName(t: ResourceType): string {
    match t
    case VM => "VM"
    case GPU => "GPU"
  }

  function ParseType(text: string): (r: Option<ResourceType>)
    ensures r.Some? ==> TypeName(r.value) == text
    ensures forall t :: TypeName(t) == text ==> r == Some(t)
  {
    if text == "VM" then Some(VM)
    else if text == "GPU" then Some(GPU)
    else None
  }

  datatype ResourceStatus = Available | InUse | Maintenance

  function ResourceStatusName(s: ResourceStatus): string {
    match s
    case Available => "available"
    case InUse => "in-use"
    case Maintenance => "maintenance"
  }

  function ParseResourceStatus(text: string): (r: Option<ResourceStatus>)
    ensures r.Some? ==> ResourceStatusName(r.value) == text
    ensures forall s :: ResourceStatusName(s) == text ==> r == Some(s)
  {
    if text == "available" then Some(Available)
    else if text == "in-use" then Some(InUse)
    else if text == "maintenance" then Some(Maintenance)
    else None
  }

  /** Casting the status path of a document: an absent status takes the
      default, a present one must be in the enum. */
  function CastResourceStatus(v: Option<string>): (r: Option<ResourceStatus>)
    ensures v.None? ==> r == Some(Available)
    ensures v.Some? ==> r == ParseResourceStatus(v.value)
  {
    match v
    case None => Some(Available)
    case Some(text) => ParseResourceStatus(text)
  }

  /** The `details` object as stored. */
  datatype Details = Details(vcpu: int, ramGB: int, storageGB: int, gpuModel: Option<string>)

  /** The `details` object as a request body carries it: any part may be
      missing. */
  datatype DetailsInput = DetailsInput(vcpu: Option<int>, ramGB: Option<int>, storageGB: Option<int>, gpuModel: Option<string>)

  function DetailsAsInput(d: Details): DetailsInput {
    DetailsInput(Some(d.vcpu), Some(d.ramGB), Some(d.storageGB), d.gpuModel)
  }

  /** The three figures are required (zero satisfies a required number);
      the GPU model is optional. */
  function CastDetails(d: DetailsInput): (r: Option<Details>)
    ensures r.Some? <==> d.vcpu.Some? && d.ramGB.Some? && d.storageGB.Some?
    ensures r.Some? ==> DetailsAsInput(r.value) == d
  {
    if d.vcpu.Some? && d.ramGB.Some? && d.storageGB.Some?
    then Some(Details(d.vcpu.value, d.ramGB.value, d.storageGB.value, d.gpuModel))
    else None
  }

  datatype Resource = Resource(name: string, kind: ResourceType, details: Details, status: ResourceStatus, hourlyRate: real)

  /** The characters `String.prototype.trim` removes: ECMAScript white space
      and line terminators. */
  predicate IsWhitespace(c: char) {
    || c == ' ' || c == '\t' || c == '\n' || c == '\U{000B}' || c == '\U{000C}' || c == '\r'
    || c == '\U{00A0}' || c == '\U{1680}' || ('\U{2000}' <= c <= '\U{200A}')
    || c == '\U{2028}' || c == '\U{2029}' || c == '\U{202F}' || c == '\U{205F}' || c == '\U{3000}' || c == '\U{FEFF}'
  }

  function TrimStart(s: string): (r: string)
    ensures |r| <= |s| && r == s[|s| - |r|..]
    ensures forall i :: 0 <= i < |s| - |r| ==> IsWhitespace(s[i])
    ensures r == [] || !IsWhitespace(r[0])
  {
    if s != [] && IsWhitespace(s[0]) then TrimStart(s[1..]) else s
  }

  function TrimEnd(s: string): (r: string)
    ensures |r| <= |s| && r == s[..|r|]
    ensures forall i :: |r| <= i < |s| ==> IsWhitespace(s[i])
    ensures r == [] || !IsWhitespace(r[|r| - 1])
  {
    if s != [] && IsWhitespace(s[|s| - 1]) then TrimEnd(s[..|s| - 1]) else s
  }

  /** The schema's `trim: true` setter. */
  function Trim(s: string): (t: string)
    ensures |t| <= |s|
    ensures IsTrimmed(t)
  {
    var front := TrimStart(s);
    var t := TrimEnd(front);
    assert t != [] ==> t[0] == front[0];
    t
  }

  predicate IsTrimmed(s: string) {
    s == [] || (!IsWhitespace(s[0]) && !IsWhitespace(s[|s| - 1]))
  }

  /** The trimmed text is a slice of the input with white space only
      outside it and none at its ends. */
  lemma TrimSpec(s: string)
    ensures IsTrimmed(Trim(s))
    ensures exists i, j :: 0 <= i <= j <= |s| && Trim(s) == s[i..j]
                           && (forall k :: 0 <= k < i ==> IsWhitespace(s[k]))
                           && (forall k :: j <= k < |s| ==> IsWhitespace(s[k]))
  {
    var t := TrimStart(s);
    var i := |s| - |t|;
    var j := i + |TrimEnd(t)|;
    assert Trim(s) == s[i..j];
    if Trim(s) != [] {
      assert Trim(s)[0] == t[0];
    }
  }

  /** Text without white space at its ends is left alone. */
  lemma {:induction false} TrimmedIsFixed(s: string)
    requires IsTrimmed(s)
    ensures Trim(s) == s
  {
    assert TrimStart(s) == s;
    assert TrimEnd(s) == s;
  }

  /** Trimming twice is trimming once, so re-assigning a stored name keeps it. */
  lemma TrimIdempotent(s: string)
    ensures Trim(Trim(s)) == Trim(s)
  {
    TrimSpec(s);
    TrimmedIsFixed(Trim(s));
  }

  /** A name survives the `required` check after trimming exactly when it
      holds a character that is not white space. */
  lemma TrimEmptyIff(s: string)
    ensures Trim(s) == "" <==> forall k :: 0 <= k < |s| ==> IsWhitespace(s[k])
  {
    TrimSpec(s);
  }

  /** `new Resource({...})` followed by validation. */
  function NewResource(name: Option<string>, kind: Option<string>, details: Option<DetailsInput>,
                       status: Option<string>, hourlyRate: Option<real>): (r: Option<Resource>)
    ensures r.Some? <==>
              && name.Some? && Trim(name.value) != ""
              && kind.Some? && ParseType(kind.value).Some?
              && details.Some? && CastDetails(details.value).Some?
              && CastResourceStatus(status).Some?
              && hourlyRate.Some?
    ensures r.Some? ==> r.value.name == Trim(name.value) && TypeName(r.value.kind) == kind.value
                        && DetailsAsInput(r.value.details) == details.value && r.value.hourlyRate == hourlyRate.value
    ensures r.Some? && status.None? ==> r.value.status == Available
    ensures r.Some? && status.Some? ==> ResourceStatusName(r.value.status) == status.value
  {
    if name.None? || Trim(name.value) == "" || kind.None? || ParseType(kind.value).None?
       || details.None? || CastDetails(details.value).None? || CastResourceStatus(status).None? || hourlyRate.None?
    then None
    else Some(Resource(Trim(name.value), ParseType(kind.value).value, CastDetails(details.value).value,
                       CastResourceStatus(status).value, hourlyRate.value))
  }

  /** A record the schema could have produced. */
  predicate ValidResource(r: Resource) {
    r.name != "" && IsTrimmed(r.name)
  }

  /** Every record the schema produces is valid. */
  lemma NewResourceValid(name: Option<string>, kind: Option<string>, details: Option<DetailsInput>,
                         status: Option<string>, hourlyRate: Option<real>)
    requires NewResource(name, kind, details, status, hourlyRate).Some?
    ensures ValidResource(NewResource(name, kind, details, status, hourlyRate).value)
  {
    TrimSpec(name.value);
  }
}
