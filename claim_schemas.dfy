/** app/schemas/claim.py: the request and response shapes of a claim and
    the field constraints the schema layer enforces on them, as validity
    predicates and as the list of field errors validation reports. */
module ClaimSchemas {
  import opened Wrappers
  import Text

  /** `ClaimStatusEnum` (and the identical `ClaimStatus` of the ORM model). */
  datatype ClaimStatus = Submitted | Processing | Approved | Denied | Pending

  /** The string value of each member. */
  function StatusValue(s: ClaimStatus): string
  {
    match s
    case Submitted => "submitted"
    case Processing => "processing"
    case Approved => "approved"
    case Denied => "denied"
    case Pending => "pending"
  }

  /** Enum validation by value: only the five member values are accepted. */
  function ParseStatus(v: string): (r: Option<ClaimStatus>)
    ensures r.Some? ==> StatusValue(r.value) == v
  {
    if v == "submitted" then Some(Submitted)
    else if v == "processing" then Some(Processing)
    else if v == "approved" then Some(Approved)
    else if v == "denied" then Some(Denied)
    else if v == "pending" then Some(Pending)
    else None
  }

  /** Parsing is the exact inverse of taking the value, and the enum has
      exactly the five values submitted, processing, approved, denied and
      pending. */
  lemma StatusValues(v: string)
    ensures ParseStatus(v).Some? <==> v in {"submitted", "processing", "approved", "denied", "pending"}
    ensures forall s: ClaimStatus :: ParseStatus(StatusValue(s)) == Some(s)
    ensures forall s: ClaimStatus :: StatusValue(s) in {"submitted", "processing", "approved", "denied", "pending"}
  {
  }

  /** Distinct members have distinct values. */
  lemma StatusValueInjective(s: ClaimStatus, t: ClaimStatus)
    requires StatusValue(s) == StatusValue(t)
    ensures s == t
  {
    StatusValues(StatusValue(s));
    assert Some(s) == ParseStatus(StatusValue(s)) == ParseStatus(StatusValue(t)) == Some(t);
  }

  /** A calendar date, taken as given (date parsing is not modelled). */
  datatype Date = Date(year: int, month: int, day: int)

  /** `Procedure`; amounts are reals. */
  datatype Procedure = Procedure(code: string, amount: real, description: string)

  /** `ClaimBase` and its subclass `ClaimCreate`, which adds nothing. */
  datatype ClaimCreate = ClaimCreate(
    patientId: string,
    providerId: string,
    serviceDate: Date,
    procedures: seq<Procedure>,
    totalAmount: real,
    notes: Option<string>)

  /** A validation error: where (field names and list indices, as strings)
      and which constraint failed (`NotAList` is the type error of a list
      field given something else). */
  datatype Constraint = TooShort(min: nat) | TooLong(max: nat) | NotGreaterThan(bound: real) | NotAList
  datatype FieldError = FieldError(loc: seq<string>, failed: Constraint)

  predicate ValidProcedure(p: Procedure)
  {
    1 <= |p.description| <= 500
  }

  predicate ValidClaimCreate(c: ClaimCreate)
  {
    && |c.patientId| >= 1
    && |c.providerId| >= 1
    && (forall k :: 0 <= k < |c.procedures| ==> ValidProcedure(c.procedures[k]))
    && c.totalAmount > 0.0
  }

  /** The error a procedure's description yields, if any. */
  function ProcedureErrors(p: Procedure, index: string): (errs: seq<FieldError>)
    ensures errs == [] <==> ValidProcedure(p)
    ensures forall e :: e in errs ==> e.loc == ["procedures", index, "description"]
  {
    if |p.description| < 1 then [FieldError(["procedures", index, "description"], TooShort(1))]
    else if |p.description| > 500 then [FieldError(["procedures", index, "description"], TooLong(500))]
    else []
  }

  /** Where the description of the procedure at list position `k` sits in
      an error: pydantic renders the position as a decimal index. */
  function DescriptionLoc(k: nat): seq<string>
  {
    ["procedures", Text.NatToString(k), "description"]
  }

  /** The errors of a list of procedures, list position by list position:
      the list is refused exactly when some element is. */
  function ProceduresErrors(ps: seq<Procedure>): (errs: seq<FieldError>)
    ensures errs == [] <==> forall k :: 0 <= k < |ps| ==> ValidProcedure(ps[k])
    ensures forall e :: e in errs ==> |e.loc| == 3 && e.loc[0] == "procedures"
  {
    if ps == [] then []
    else
      var init := ps[..|ps| - 1];
      var rest := ProceduresErrors(init);
      assert forall k :: 0 <= k < |init| ==> init[k] == ps[k];
      rest + ProcedureErrors(ps[|ps| - 1], Text.NatToString(|ps| - 1))
  }

  /** Each invalid procedure is reported at its own list position. */
  lemma {:induction false} ProceduresErrorsAt(ps: seq<Procedure>, k: nat)
    requires k < |ps| && !ValidProcedure(ps[k])
    ensures ProcedureErrors(ps[k], Text.NatToString(k)) != []
    ensures ProcedureErrors(ps[k], Text.NatToString(k))[0].loc == DescriptionLoc(k)
    ensures ProcedureErrors(ps[k], Text.NatToString(k))[0] in ProceduresErrors(ps)
  {
    var init := ps[..|ps| - 1];
    var last := ProcedureErrors(ps[|ps| - 1], Text.NatToString(|ps| - 1));
    var mine := ProcedureErrors(ps[k], Text.NatToString(k));
    assert ProceduresErrors(ps) == ProceduresErrors(init) + last;
    if k < |init| {
      assert mine[0] in ProceduresErrors(init) by {
        assert init[k] == ps[k];
        ProceduresErrorsAt(init, k);
      }
    } else {
      assert mine == last;
    }
  }

  /** Validation of a `ClaimCreate` body, fields in declaration order. The
      body is accepted exactly when it satisfies every field constraint. */
  function ClaimCreateErrors(c: ClaimCreate): (errs: seq<FieldError>)
    ensures errs == [] <==> ValidClaimCreate(c)
    ensures (FieldError(["patient_id"], TooShort(1)) in errs) <==> c.patientId == ""
    ensures (FieldError(["provider_id"], TooShort(1)) in errs) <==> c.providerId == ""
    ensures (FieldError(["total_amount"], NotGreaterThan(0.0)) in errs) <==> c.totalAmount <= 0.0
  {
    var procs := ProceduresErrors(c.procedures);
    (if |c.patientId| < 1 then [FieldError(["patient_id"], TooShort(1))] else [])
    + (if |c.providerId| < 1 then [FieldError(["provider_id"], TooShort(1))] else [])
    + procs
    + (if c.totalAmount <= 0.0 then [FieldError(["total_amount"], NotGreaterThan(0.0))] else [])
  }

  /** One field of `ClaimUpdate`: left out of the request body, or set (to
      `None` or to a value). Only set fields are applied by an update. */
  datatype Patch<+T> = Unset | Set(value: T)

  /** `ClaimUpdate`: every field optional and defaulting to `None`. */
  datatype ClaimUpdate = ClaimUpdate(
    patientId: Patch<Option<string>>,
    providerId: Patch<Option<string>>,
    serviceDate: Patch<Option<Date>>,
    procedures: Patch<Option<seq<Procedure>>>,
    totalAmount: Patch<Option<real>>,
    notes: Patch<Option<string>>,
    status: Patch<Option<ClaimStatus>>)

  /** An update constrains nothing but the procedures it carries. */
  predicate ValidClaimUpdate(u: ClaimUpdate)
  {
    u.procedures.Set? && u.procedures.value.Some? ==>
      forall k :: 0 <= k < |u.procedures.value.value| ==> ValidProcedure(u.procedures.value.value[k])
  }

  function ClaimUpdateErrors(u: ClaimUpdate): (errs: seq<FieldError>)
    ensures errs == [] <==> ValidClaimUpdate(u)
    ensures forall e :: e in errs ==> |e.loc| == 3 && e.loc[0] == "procedures"
  {
    if u.procedures.Set? && u.procedures.value.Some? then ProceduresErrors(u.procedures.value.value)
    else []
  }

  /** Unlike creation, an update may set an empty patient id, an empty
      provider id and a total amount that is zero or negative. */
  lemma UpdateLooserThanCreate(c: ClaimCreate)
    requires c.patientId == "" && c.totalAmount <= 0.0
    ensures ClaimCreateErrors(c) != []
    ensures var u := ClaimUpdate(Set(Some(c.patientId)), Set(Some(c.providerId)), Set(Some(c.serviceDate)),
                                 Unset, Set(Some(c.totalAmount)), Set(c.notes), Unset);
            ClaimUpdateErrors(u) == []
  {
  }

  /** `ClaimInDB`: the create fields plus the id, the status and the two
      timestamps (instants as integers). */
  datatype ClaimInDB = ClaimInDB(
    base: ClaimCreate,
    id: nat,
    status: ClaimStatus,
    createdAt: int,
    updatedAt: int)

  /** A `ClaimInDB` satisfies the `ClaimBase` constraints it inherits. */
  predicate ValidClaimInDB(c: ClaimInDB)
  {
    ValidClaimCreate(c.base)
  }

  /** Building a `ClaimInDB` from attributes (the response model of the
      create, read and update endpoints): the inherited `ClaimBase` fields
      are validated again, so the construction fails with their errors
      exactly when they break a constraint; a missing status defaults to
      SUBMITTED and a given one is kept. */
  function MakeClaimInDB(base: ClaimCreate, id: nat, status: Option<ClaimStatus>, createdAt: int, updatedAt: int)
    : (r: Result<ClaimInDB, seq<FieldError>>)
    ensures r.Ok? <==> ValidClaimCreate(base)
    ensures r.Ok? ==> ValidClaimInDB(r.value)
    ensures r.Ok? ==> r.value.base == base && r.value.id == id
    ensures r.Ok? ==> r.value.createdAt == createdAt && r.value.updatedAt == updatedAt
    ensures r.Ok? && status.None? ==> r.value.status == Submitted
    ensures r.Ok? && status.Some? ==> r.value.status == status.value
    ensures r.Err? ==> r.error != [] && r.error == ClaimCreateErrors(base)
  {
    var errs := ClaimCreateErrors(base);
    if errs != [] then Err(errs)
    else Ok(ClaimInDB(base, id, status.GetOr(Submitted), createdAt, updatedAt))
  }

  /** `ClaimStatusResponse`. */
  datatype ClaimStatusResponse = ClaimStatusResponse(id: nat, status: ClaimStatus, updatedAt: int)

  /** The status view of a stored claim: its id, status and update time
      and nothing else. */
  function StatusResponse(c: ClaimInDB): (r: ClaimStatusResponse)
    ensures r.id == c.id && r.status == c.status && r.updatedAt == c.updatedAt
  {
    ClaimStatusResponse(c.id, c.status, c.updatedAt)
  }
}
