/** app/services/claim.py: owner-scoped create, read, update and delete of
    claims. The claims table is an in-memory map from claim id to claim
    record; a query is a lookup in it and a commit either stores the new
    table or, when a column constraint is violated, leaves it unchanged. */
module ClaimService {
  import opened Wrappers
  import opened ClaimSchemas

  /** UUIDs are opaque identifiers; only their equality matters. */
  type Uuid = nat

  /** A row of the `claims` table (timestamps are not modelled). The
      `procedures` column is JSONB: a Python `None` is stored as the JSON
      value `null`, not as SQL NULL, so the column's NOT NULL constraint
      lets it through; `None` here is that JSON `null`. */
  datatype Claim = Claim(
    id: Uuid,
    userId: Uuid,
    patientId: string,
    providerId: string,
    serviceDate: Date,
    procedures: Option<seq<Procedure>>,
    totalAmount: real,
    notes: Option<string>,
    status: ClaimStatus)

  type Table = map<Uuid, Claim>

  /** The `total_amount` column is `Numeric(precision=10, scale=2)`: a value
      is stored rounded to two decimals (half away from zero), and the
      commit fails unless at most eight integer digits remain. */
  predicate FitsNumeric(x: real)
  {
    -99999999.995 < x < 99999999.995
  }

  /** Every stored amount fits its column. */
  predicate AmountsFit(t: Table)
  {
    forall id :: id in t ==> FitsNumeric(t[id].totalAmount)
  }

  /** Every row is stored under its own primary key. */
  predicate WellKeyed(t: Table)
  {
    forall id :: id in t ==> t[id].id == id
  }

  /** The rows `select(Claim).where(Claim.id == claimId, Claim.user_id == userId)`
      selects, as a set. */
  function Selected(t: Table, claimId: Uuid, userId: Uuid): set<Claim>
  {
    set id | id in t && t[id].id == claimId && t[id].userId == userId :: t[id]
  }

  /** `get_claim`: the claim with that id if it is owned by `userId`. */
  function GetClaim(t: Table, claimId: Uuid, userId: Uuid): (r: Option<Claim>)
    requires WellKeyed(t)
    ensures r.Some? ==> r.value.id == claimId && r.value.userId == userId
    ensures r.None? ==> forall c :: c in t.Values ==> !(c.id == claimId && c.userId == userId)
    ensures r.Some? ==> r.value in t.Values
  {
    if claimId in t && t[claimId].userId == userId then Some(t[claimId]) else None
  }

  /** `.first()` of the query is the only row it selects: the result of
      `get_claim` is exactly what the owner-scoped query selects. */
  lemma {:induction false} GetClaimIsQuery(t: Table, claimId: Uuid, userId: Uuid)
    requires WellKeyed(t)
    ensures GetClaim(t, claimId, userId).None? <==> Selected(t, claimId, userId) == {}
    ensures GetClaim(t, claimId, userId).Some? ==> Selected(t, claimId, userId) == {GetClaim(t, claimId, userId).value}
  {
    var r := GetClaim(t, claimId, userId);
    if r.Some? {
      assert r.value in Selected(t, claimId, userId);
      forall c | c in Selected(t, claimId, userId) ensures c == r.value {
        var id :| id in t && t[id].id == claimId && t[id].userId == userId && c == t[id];
      }
    }
  }

  /** A claim is never returned to a user who does not own it. */
  lemma ForeignClaimHidden(t: Table, claimId: Uuid, userId: Uuid)
    requires WellKeyed(t)
    requires claimId in t && t[claimId].userId != userId
    ensures GetClaim(t, claimId, userId) == None
  {
  }

  /** `get_claim_status`: the same owner-scoped query as `get_claim`. */
  function GetClaimStatus(t: Table, claimId: Uuid, userId: Uuid): (r: Option<Claim>)
    requires WellKeyed(t)
    ensures r.Some? ==> r.value.id == claimId && r.value.userId == userId
    ensures r.Some? <==> claimId in t && t[claimId].userId == userId
  {
    if claimId in t && t[claimId].userId == userId then Some(t[claimId]) else None
  }

  lemma StatusQueryIsClaimQuery(t: Table, claimId: Uuid, userId: Uuid)
    requires WellKeyed(t)
    ensures GetClaimStatus(t, claimId, userId) == GetClaim(t, claimId, userId)
  {
  }

  /** `get_user_claims`: the rows owned by `userId` (the query has no
      ORDER BY, so the result is a set). */
  function GetUserClaims(t: Table, userId: Uuid): (cs: set<Claim>)
    ensures forall c :: c in cs ==> c in t.Values && c.userId == userId
  {
    set c | c in t.Values && c.userId == userId
  }

  /** The list of a user's claims holds exactly the claims `get_claim`
      finds for that user. */
  lemma UserClaimsAgreeWithGetClaim(t: Table, userId: Uuid, claimId: Uuid)
    requires WellKeyed(t)
    ensures GetClaim(t, claimId, userId).Some? <==> exists c :: c in GetUserClaims(t, userId) && c.id == claimId
    ensures GetClaim(t, claimId, userId).Some? ==> GetClaim(t, claimId, userId).value in GetUserClaims(t, userId)
  {
    if exists c :: c in GetUserClaims(t, userId) && c.id == claimId {
      var c :| c in GetUserClaims(t, userId) && c.id == claimId;
      var id :| id in t && t[id] == c;
      assert id == claimId;
    }
  }

  /** The row `create_claim` builds: owned by `userId`, status SUBMITTED,
      every other field copied from the request. */
  function NewClaim(claimIn: ClaimCreate, userId: Uuid, id: Uuid): (c: Claim)
    ensures c.id == id && c.userId == userId && c.status == Submitted
    ensures c.patientId == claimIn.patientId && c.providerId == claimIn.providerId
    ensures c.serviceDate == claimIn.serviceDate && c.procedures == Some(claimIn.procedures)
    ensures c.totalAmount == claimIn.totalAmount && c.notes == claimIn.notes
  {
    Claim(id, userId, claimIn.patientId, claimIn.providerId, claimIn.serviceDate,
          Some(claimIn.procedures), claimIn.totalAmount, claimIn.notes, Submitted)
  }

  /** The create-schema fields of a row whose procedures are a list, for
      checking the row against the constraints `ClaimInDB` re-validates on
      the way out. */
  function AsCreate(c: Claim): ClaimCreate
    requires c.procedures.Some?
  {
    ClaimCreate(c.patientId, c.providerId, c.serviceDate, c.procedures.value, c.totalAmount, c.notes)
  }

  /** The `ClaimInDB` response built from a stored row: a JSON `null` in
      `procedures` is not a list and fails validation at that field;
      otherwise the inherited fields are validated as on creation. */
  function ClaimResponse(c: Claim, createdAt: int, updatedAt: int): (r: Result<ClaimInDB, seq<FieldError>>)
    ensures r.Ok? <==> c.procedures.Some? && ValidClaimCreate(AsCreate(c))
    ensures c.procedures.None? ==> r == Err([FieldError(["procedures"], NotAList)])
    ensures r.Ok? ==> r.value.base == AsCreate(c) && r.value.id == c.id && r.value.status == c.status
  {
    if c.procedures.None? then Err([FieldError(["procedures"], NotAList)])
    else MakeClaimInDB(AsCreate(c), c.id, Some(c.status), createdAt, updatedAt)
  }

  lemma NewClaimKeepsRequest(claimIn: ClaimCreate, userId: Uuid, id: Uuid)
    ensures AsCreate(NewClaim(claimIn, userId, id)) == claimIn
    ensures ValidClaimCreate(claimIn) ==> ClaimResponse(NewClaim(claimIn, userId, id), 0, 0).Ok?
  {
  }

  // ---------------------------------------------------------------------
  // update_claim
  // ---------------------------------------------------------------------

  /** One entry of `claim_in.dict(exclude_unset=True)`: a field name with
      the value it was explicitly given (possibly `None`). */
  datatype FieldValue =
    | PatientId(patientId: Option<string>)
    | ProviderId(providerId: Option<string>)
    | ServiceDate(serviceDate: Option<Date>)
    | Procedures(procedures: Option<seq<Procedure>>)
    | TotalAmount(totalAmount: Option<real>)
    | Notes(notes: Option<string>)
    | Status(status: Option<ClaimStatus>)

  function Entry<T>(p: Patch<Option<T>>, f: Option<T> -> FieldValue): seq<FieldValue>
  {
    if p.Set? then [f(p.value)] else []
  }

  /** `claim_in.dict(exclude_unset=True)`: the explicitly set fields, in
      declaration order. */
  function UpdateData(u: ClaimUpdate): (data: seq<FieldValue>)
    ensures |data| <= 7
    ensures u.patientId.Set? ==> |data| >= 1 && data[0] == PatientId(u.patientId.value)
    ensures data == [] <==> u == ClaimUpdate(Unset, Unset, Unset, Unset, Unset, Unset, Unset)
  {
    EntryAt(u, 0) + EntryAt(u, 1) + EntryAt(u, 2) + EntryAt(u, 3)
    + EntryAt(u, 4) + EntryAt(u, 5) + EntryAt(u, 6)
  }

  /** Whether the commit's column check refuses a set value: `None` on a
      NOT NULL column other than the JSONB `procedures` (where `None` is
      stored as JSON `null`), or an amount the `Numeric(10, 2)` column
      cannot hold. */
  predicate Refused(fv: FieldValue)
  {
    match fv
    case PatientId(v) => v.None?
    case ProviderId(v) => v.None?
    case ServiceDate(v) => v.None?
    case Procedures(_) => false
    case TotalAmount(v) => v.None? || !FitsNumeric(v.value)
    case Notes(_) => false
    case Status(v) => v.None?
  }

  /** `setattr(claim, field, value)` followed by the column check of the
      commit: `None` is refused by the NOT NULL columns except `procedures`
      (JSONB stores it as JSON `null`) and is accepted by the nullable
      `notes`; an amount is refused by the `Numeric(10, 2)` column when it
      does not fit. `None` here stands for the failed commit. */
  function SetAttr(c: Option<Claim>, fv: FieldValue): (r: Option<Claim>)
    ensures r.None? <==> c.None? || Refused(fv)
    ensures r.Some? ==> r.value.id == c.value.id && r.value.userId == c.value.userId
    ensures r.Some? && fv.PatientId? ==> r.value == c.value.(patientId := fv.patientId.value)
    ensures r.Some? && fv.ProviderId? ==> r.value == c.value.(providerId := fv.providerId.value)
    ensures r.Some? && fv.ServiceDate? ==> r.value == c.value.(serviceDate := fv.serviceDate.value)
    ensures r.Some? && fv.Procedures? ==> r.value == c.value.(procedures := fv.procedures)
    ensures r.Some? && fv.TotalAmount? ==> r.value == c.value.(totalAmount := fv.totalAmount.value)
    ensures r.Some? && fv.Status? ==> r.value == c.value.(status := fv.status.value)
    ensures r.Some? && fv.Notes? ==> r.value == c.value.(notes := fv.notes)
  {
    match c
    case None => None
    case Some(c) =>
      match fv
      case PatientId(v) => if v.None? then None else Some(c.(patientId := v.value))
      case ProviderId(v) => if v.None? then None else Some(c.(providerId := v.value))
      case ServiceDate(v) => if v.None? then None else Some(c.(serviceDate := v.value))
      case Procedures(v) => Some(c.(procedures := v))
      case TotalAmount(v) => if v.None? || !FitsNumeric(v.value) then None else Some(c.(totalAmount := v.value))
      case Notes(v) => Some(c.(notes := v))
      case Status(v) => if v.None? then None else Some(c.(status := v.value))
  }

  /** The `setattr` loop over a list of set fields, first to last. */
  function SetAll(c: Option<Claim>, data: seq<FieldValue>): Option<Claim>
  {
    if data == [] then c else SetAttr(SetAll(c, data[..|data| - 1]), data[|data| - 1])
  }

  lemma {:induction false} SetAllAppend(c: Option<Claim>, a: seq<FieldValue>, b: seq<FieldValue>)
    ensures SetAll(c, a + b) == SetAll(SetAll(c, a), b)
  {
    if b == [] {
      assert a + b == a;
    } else {
      SetAllAppend(c, a, b[..|b| - 1]);
      assert (a + b)[..|a + b| - 1] == a + b[..|b| - 1];
    }
  }

  /** One field of an update, applied to the stored value `current`:
      unset keeps it, a value replaces it, `None` fails unless the column
      is nullable. */
  function Patched<T>(p: Patch<Option<T>>, current: T): Option<T>
  {
    match p
    case Unset => Some(current)
    case Set(v) => v
  }

  /** An update field by field, independently of any loop: the claim with
      every set field replaced, or `None` when a set `None` meets a NOT
      NULL column that refuses it or a set amount does not fit its column. */
  function ApplyUpdate(c: Claim, u: ClaimUpdate): (r: Option<Claim>)
    ensures r.Some? ==> r.value.id == c.id && r.value.userId == c.userId
    ensures r.None? <==>
      || u.patientId == Set(None) || u.providerId == Set(None) || u.serviceDate == Set(None)
      || u.totalAmount == Set(None) || u.status == Set(None)
      || (u.totalAmount.Set? && u.totalAmount.value.Some? && !FitsNumeric(u.totalAmount.value.value))
  {
    var patientId := Patched(u.patientId, c.patientId);
    var providerId := Patched(u.providerId, c.providerId);
    var serviceDate := Patched(u.serviceDate, c.serviceDate);
    var procedures := if u.procedures.Set? then u.procedures.value else c.procedures;
    var totalAmount := if u.totalAmount.Set? && u.totalAmount.value.Some? && !FitsNumeric(u.totalAmount.value.value)
                       then None else Patched(u.totalAmount, c.totalAmount);
    var notes := if u.notes.Set? then u.notes.value else c.notes;
    var status := Patched(u.status, c.status);
    if patientId.None? || providerId.None? || serviceDate.None?
       || totalAmount.None? || status.None?
    then None
    else Some(Claim(c.id, c.userId, patientId.value, providerId.value, serviceDate.value,
                    procedures, totalAmount.value, notes, status.value))
  }

  /** An applied update changes exactly the fields that were set: a set
      field takes the given value and every other field keeps its own. */
  lemma UpdateTouchesOnlySetFields(c: Claim, u: ClaimUpdate)
    requires ApplyUpdate(c, u).Some?
    ensures var d := ApplyUpdate(c, u).value;
      && d.patientId == (if u.patientId.Set? then u.patientId.value.value else c.patientId)
      && d.providerId == (if u.providerId.Set? then u.providerId.value.value else c.providerId)
      && d.serviceDate == (if u.serviceDate.Set? then u.serviceDate.value.value else c.serviceDate)
      && d.procedures == (if u.procedures.Set? then u.procedures.value else c.procedures)
      && d.totalAmount == (if u.totalAmount.Set? then u.totalAmount.value.value else c.totalAmount)
      && d.notes == (if u.notes.Set? then u.notes.value else c.notes)
      && d.status == (if u.status.Set? then u.status.value.value else c.status)
  {
  }

  /** Applying the same update twice is applying it once. */
  lemma UpdateIdempotent(c: Claim, u: ClaimUpdate)
    requires ApplyUpdate(c, u).Some?
    ensures ApplyUpdate(ApplyUpdate(c, u).value, u) == ApplyUpdate(c, u)
  {
  }

  /** An update that sets nothing leaves the claim as it is. */
  lemma EmptyUpdateKeepsClaim(c: Claim)
    ensures ApplyUpdate(c, ClaimUpdate(Unset, Unset, Unset, Unset, Unset, Unset, Unset)) == Some(c)
  {
  }

  /** `u` with only its first `k` fields (in declaration order) kept. */
  function Truncate(u: ClaimUpdate, k: nat): ClaimUpdate
  {
    ClaimUpdate(
      if k > 0 then u.patientId else Unset,
      if k > 1 then u.providerId else Unset,
      if k > 2 then u.serviceDate else Unset,
      if k > 3 then u.procedures else Unset,
      if k > 4 then u.totalAmount else Unset,
      if k > 5 then u.notes else Unset,
      if k > 6 then u.status else Unset)
  }

  /** The `exclude_unset` entry of field number `k`. */
  function EntryAt(u: ClaimUpdate, k: nat): seq<FieldValue>
    requires k < 7
  {
    if k == 0 then Entry(u.patientId, v => PatientId(v))
    else if k == 1 then Entry(u.providerId, v => ProviderId(v))
    else if k == 2 then Entry(u.serviceDate, v => ServiceDate(v))
    else if k == 3 then Entry(u.procedures, v => Procedures(v))
    else if k == 4 then Entry(u.totalAmount, v => TotalAmount(v))
    else if k == 5 then Entry(u.notes, v => Notes(v))
    else Entry(u.status, v => Status(v))
  }

  /** The `exclude_unset` entries of the first `k` fields. */
  function DataUpTo(u: ClaimUpdate, k: nat): seq<FieldValue>
    requires k <= 7
  {
    if k == 0 then [] else DataUpTo(u, k - 1) + EntryAt(u, k - 1)
  }

  /** The position of a field in the declaration order of `ClaimUpdate`. */
  function FieldIndex(fv: FieldValue): nat
  {
    match fv
    case PatientId(_) => 0
    case ProviderId(_) => 1
    case ServiceDate(_) => 2
    case Procedures(_) => 3
    case TotalAmount(_) => 4
    case Notes(_) => 5
    case Status(_) => 6
  }

  /** An entry carries exactly the value its field was set to. */
  predicate Carries(u: ClaimUpdate, fv: FieldValue)
  {
    match fv
    case PatientId(v) => u.patientId == Set(v)
    case ProviderId(v) => u.providerId == Set(v)
    case ServiceDate(v) => u.serviceDate == Set(v)
    case Procedures(v) => u.procedures == Set(v)
    case TotalAmount(v) => u.totalAmount == Set(v)
    case Notes(v) => u.notes == Set(v)
    case Status(v) => u.status == Set(v)
  }

  /** Whether field number `k` (in declaration order) was explicitly set. */
  predicate FieldSet(u: ClaimUpdate, k: nat)
  {
    || (k == 0 && u.patientId.Set?) || (k == 1 && u.providerId.Set?)
    || (k == 2 && u.serviceDate.Set?) || (k == 3 && u.procedures.Set?)
    || (k == 4 && u.totalAmount.Set?) || (k == 5 && u.notes.Set?)
    || (k == 6 && u.status.Set?)
  }

  /** Field `k`'s entry is its set value, or nothing when it is unset. */
  lemma EntryAtFacts(u: ClaimUpdate, k: nat)
    requires k < 7
    ensures |EntryAt(u, k)| <= 1
    ensures EntryAt(u, k) != [] <==> FieldSet(u, k)
    ensures EntryAt(u, k) != [] ==> FieldIndex(EntryAt(u, k)[0]) == k && Carries(u, EntryAt(u, k)[0])
  {
  }

  /** The entries of the first `k` fields: each carries its set value, they
      come in declaration order, and a field among the first `k` has an
      entry exactly when it was set. */
  lemma {:induction false} DataUpToFields(u: ClaimUpdate, k: nat)
    requires k <= 7
    ensures forall i :: 0 <= i < |DataUpTo(u, k)| ==> Carries(u, DataUpTo(u, k)[i]) && FieldIndex(DataUpTo(u, k)[i]) < k
    ensures forall i, j :: 0 <= i < j < |DataUpTo(u, k)| ==> FieldIndex(DataUpTo(u, k)[i]) < FieldIndex(DataUpTo(u, k)[j])
    ensures forall f :: 0 <= f < k ==>
              (FieldSet(u, f) <==> exists i :: 0 <= i < |DataUpTo(u, k)| && FieldIndex(DataUpTo(u, k)[i]) == f)
  {
    if k > 0 {
      DataUpToFields(u, k - 1);
      EntryAtFacts(u, k - 1);
      var p := DataUpTo(u, k - 1);
      var e := EntryAt(u, k - 1);
      var d := DataUpTo(u, k);
      assert d == p + e;
      assert forall i :: 0 <= i < |p| ==> Carries(u, p[i]) && FieldIndex(p[i]) < k - 1;
      assert forall i :: 0 <= i < |p| ==> d[i] == p[i];
      assert e != [] ==> d[|p|] == e[0] && |d| == |p| + 1;
      assert e == [] ==> d == p;
      forall f | 0 <= f < k
        ensures FieldSet(u, f) <==> exists i :: 0 <= i < |d| && FieldIndex(d[i]) == f
      {
        ListedInPrefix(d, p, e, f, k);
      }
    }
  }

  /** The step of `DataUpToFields` for one field `f`. */
  lemma ListedInPrefix(d: seq<FieldValue>, p: seq<FieldValue>, e: seq<FieldValue>, f: nat, k: nat)
    requires d == p + e && |e| <= 1 && 0 < k && f < k
    requires forall i :: 0 <= i < |p| ==> FieldIndex(p[i]) < k - 1
    requires e != [] ==> FieldIndex(e[0]) == k - 1
    ensures (exists i :: 0 <= i < |d| && FieldIndex(d[i]) == f) <==>
            (if f < k - 1 then exists i :: 0 <= i < |p| && FieldIndex(p[i]) == f else e != [])
  {
    if exists i :: 0 <= i < |d| && FieldIndex(d[i]) == f {
      var i :| 0 <= i < |d| && FieldIndex(d[i]) == f;
      if i < |p| {
        assert d[i] == p[i];
      } else {
        assert d[i] == e[0];
      }
    }
    if f < k - 1 && exists i :: 0 <= i < |p| && FieldIndex(p[i]) == f {
      var i :| 0 <= i < |p| && FieldIndex(p[i]) == f;
      assert d[i] == p[i];
    }
    if f == k - 1 && e != [] {
      assert d[|p|] == e[0];
    }
  }

  /** `claim_in.dict(exclude_unset=True)` lists exactly the explicitly set
      fields, each with the value it was given, in declaration order:
      field number `f` has an entry iff it was set. */
  lemma UpdateDataListsSetFields(u: ClaimUpdate)
    ensures var data := UpdateData(u);
      && (forall i :: 0 <= i < |data| ==> Carries(u, data[i]))
      && (forall i, j :: 0 <= i < j < |data| ==> FieldIndex(data[i]) < FieldIndex(data[j]))
      && (forall f :: 0 <= f < 7 ==> (FieldSet(u, f) <==> exists i :: 0 <= i < |data| && FieldIndex(data[i]) == f))
  {
    UpdateDataUpTo(u);
    DataUpToFields(u, 7);
  }

  lemma UpdateDataUpTo(u: ClaimUpdate)
    ensures UpdateData(u) == DataUpTo(u, 7)
  {
    var e0, e1, e2, e3 := EntryAt(u, 0), EntryAt(u, 1), EntryAt(u, 2), EntryAt(u, 3);
    var e4, e5, e6 := EntryAt(u, 4), EntryAt(u, 5), EntryAt(u, 6);
    assert DataUpTo(u, 1) == e0 by { assert [] + e0 == e0; }
    assert DataUpTo(u, 2) == e0 + e1;
    assert DataUpTo(u, 3) == e0 + e1 + e2;
    assert DataUpTo(u, 4) == e0 + e1 + e2 + e3;
    assert DataUpTo(u, 5) == e0 + e1 + e2 + e3 + e4;
    assert DataUpTo(u, 6) == e0 + e1 + e2 + e3 + e4 + e5;
  }

  /** Setting field number `k` on top of the first `k` fields. */
  lemma ApplyUpdateStep(c: Claim, u: ClaimUpdate, k: nat)
    requires k < 7
    ensures var e := EntryAt(u, k);
      ApplyUpdate(c, Truncate(u, k + 1))
      == (if e == [] then ApplyUpdate(c, Truncate(u, k)) else SetAttr(ApplyUpdate(c, Truncate(u, k)), e[0]))
  {
  }

  /** The `setattr` loop over the first `k` set fields computes the
      field-wise update of those fields. */
  lemma {:induction false} SetAllIsApplyUpdatePrefix(c: Claim, u: ClaimUpdate, k: nat)
    requires k <= 7
    ensures SetAll(Some(c), DataUpTo(u, k)) == ApplyUpdate(c, Truncate(u, k))
  {
    if k == 0 {
      EmptyUpdateKeepsClaim(c);
      assert Truncate(u, 0) == ClaimUpdate(Unset, Unset, Unset, Unset, Unset, Unset, Unset);
    } else {
      SetAllIsApplyUpdatePrefix(c, u, k - 1);
      SetAllDataStep(Some(c), u, k - 1);
      ApplyUpdateStep(c, u, k - 1);
    }
  }

  /** The `setattr` loop over the first `k + 1` entries is one more
      `setattr` (or none, for an unset field) after the first `k`. */
  lemma SetAllDataStep(c: Option<Claim>, u: ClaimUpdate, k: nat)
    requires k < 7
    ensures var e := EntryAt(u, k);
      SetAll(c, DataUpTo(u, k + 1)) == (if e == [] then SetAll(c, DataUpTo(u, k)) else SetAttr(SetAll(c, DataUpTo(u, k)), e[0]))
  {
    SetAllAppend(c, DataUpTo(u, k), EntryAt(u, k));
    SetAllSingle(SetAll(c, DataUpTo(u, k)), EntryAt(u, k));
  }

  /** The `setattr` loop over `exclude_unset` data computes the field-wise
      update. */
  lemma SetAllIsApplyUpdate(c: Claim, u: ClaimUpdate)
    ensures SetAll(Some(c), UpdateData(u)) == ApplyUpdate(c, u)
  {
    SetAllIsApplyUpdatePrefix(c, u, 7);
    UpdateDataUpTo(u);
    assert Truncate(u, 7) == u;
  }

  /** One more turn of the `setattr` loop. */
  lemma SetAllSnoc(c: Option<Claim>, data: seq<FieldValue>, i: nat)
    requires i < |data|
    ensures SetAll(c, data[..i + 1]) == SetAttr(SetAll(c, data[..i]), data[i])
  {
    assert data[..i + 1][..i] == data[..i];
  }

  lemma SetAllSingle(c: Option<Claim>, e: seq<FieldValue>)
    requires |e| <= 1
    ensures SetAll(c, e) == (if e == [] then c else SetAttr(c, e[0]))
  {
    if e != [] {
      assert e[..0] == [];
    }
  }

  /** An update may store a claim that the creation constraints refuse:
      `ClaimUpdate.total_amount` carries no positivity constraint, so a
      valid claim can be updated to a negative total, which `ClaimInDB`
      then refuses when the response is built. */
  lemma UpdateCanBreakCreateConstraints(c: Claim, createdAt: int, updatedAt: int)
    requires ClaimResponse(c, createdAt, updatedAt).Ok?
    ensures var u := ClaimUpdate(Unset, Unset, Unset, Unset, Set(Some(-1.0)), Unset, Unset);
      && ClaimUpdateErrors(u) == []
      && ApplyUpdate(c, u).Some?
      && ApplyUpdate(c, u).value.procedures.Some?
      && !ValidClaimCreate(AsCreate(ApplyUpdate(c, u).value))
      && ClaimResponse(ApplyUpdate(c, u).value, createdAt, updatedAt).Err?
  {
  }

  /** An update may set `procedures` to `None`: the schema accepts it, the
      JSONB column stores JSON `null` and the commit succeeds, but the
      `ClaimInDB` response of the stored row then fails, since `null` is
      not a list. */
  lemma NullProceduresCommitButBreakResponse(c: Claim, createdAt: int, updatedAt: int)
    ensures var u := ClaimUpdate(Unset, Unset, Unset, Set(None), Unset, Unset, Unset);
      && ClaimUpdateErrors(u) == []
      && ApplyUpdate(c, u) == Some(c.(procedures := None))
      && ClaimResponse(ApplyUpdate(c, u).value, createdAt, updatedAt) == Err([FieldError(["procedures"], NotAList)])
  {
  }

  /** What `update_claim` ends in: no such claim for this user (None), the
      refreshed claim, or the commit's IntegrityError. */
  datatype UpdateOutcome = NotFound | Updated(claim: Claim) | Rejected

  /** The claims table behind the service functions. */
  class ClaimStore {
    var claims: Table

    predicate Valid()
      reads this
    {
      WellKeyed(claims) && AmountsFit(claims)
    }

    constructor()
      ensures Valid() && claims == map[]
    {
      claims := map[];
    }

    /** `create_claim`; `newId` is the `uuid4()` the column default draws.
        An amount the `Numeric(10, 2)` column cannot hold, or an id already
        in the table, fails the commit. */
    method CreateClaim(claimIn: ClaimCreate, userId: Uuid, newId: Uuid) returns (r: Result<Claim, string>)
      requires Valid()
      modifies this
      ensures Valid()
      ensures !FitsNumeric(claimIn.totalAmount) ==> r == Err("NumericValueOutOfRange") && claims == old(claims)
      ensures FitsNumeric(claimIn.totalAmount) && newId in old(claims) ==> r == Err("IntegrityError") && claims == old(claims)
      ensures FitsNumeric(claimIn.totalAmount) && newId !in old(claims) ==>
        r == Ok(NewClaim(claimIn, userId, newId)) && claims == old(claims)[newId := r.value]
      ensures r.Ok? ==> GetClaim(claims, newId, userId) == Some(r.value)
    {
      if !FitsNumeric(claimIn.totalAmount) {
        return Err("NumericValueOutOfRange");
      }
      if newId in claims {
        return Err("IntegrityError");
      }
      var c := NewClaim(claimIn, userId, newId);
      claims := claims[newId := c];
      r := Ok(c);
    }

    /** `update_claim`: look the claim up for this user, apply the set
        fields one `setattr` at a time, commit. */
    method UpdateClaim(claimId: Uuid, claimIn: ClaimUpdate, userId: Uuid) returns (r: UpdateOutcome)
      requires Valid()
      modifies this
      ensures Valid()
      ensures GetClaim(old(claims), claimId, userId).None? ==> r == NotFound && claims == old(claims)
      ensures GetClaim(old(claims), claimId, userId).Some? ==>
        match ApplyUpdate(GetClaim(old(claims), claimId, userId).value, claimIn)
        case None => r == Rejected && claims == old(claims)
        case Some(d) => r == Updated(d) && claims == old(claims)[claimId := d]
    {
      var found := GetClaim(claims, claimId, userId);
      if found.None? {
        return NotFound;
      }
      var data := UpdateData(claimIn);
      var current: Option<Claim> := found;
      for i := 0 to |data|
        invariant current == SetAll(found, data[..i])
        invariant claims == old(claims)
      {
        SetAllSnoc(found, data, i);
        current := SetAttr(current, data[i]);
      }
      assert data[..|data|] == data;
      SetAllIsApplyUpdate(found.value, claimIn);
      assert current == ApplyUpdate(found.value, claimIn);
      if current.None? {
        return Rejected;
      }
      claims := claims[claimId := current.value];
      r := Updated(current.value);
    }

    /** `delete_claim`: remove this user's claim; report whether there was
        one. */
    method DeleteClaim(claimId: Uuid, userId: Uuid) returns (deleted: bool)
      requires Valid()
      modifies this
      ensures Valid()
      ensures deleted <==> GetClaim(old(claims), claimId, userId).Some?
      ensures deleted ==> claims == old(claims) - {claimId}
      ensures !deleted ==> claims == old(claims)
    {
      var found := GetClaim(claims, claimId, userId);
      if found.None? {
        return false;
      }
      claims := claims - {claimId};
      deleted := true;
    }
  }

  /** After a delete, the claim can no longer be fetched and every other
      claim is fetched as before. */
  lemma DeleteForgetsOnlyThatClaim(t: Table, claimId: Uuid, userId: Uuid, otherId: Uuid, anyUser: Uuid)
    requires WellKeyed(t) && GetClaim(t, claimId, userId).Some?
    requires otherId != claimId
    ensures WellKeyed(t - {claimId})
    ensures GetClaim(t - {claimId}, claimId, anyUser) == None
    ensures GetClaim(t - {claimId}, otherId, anyUser) == GetClaim(t, otherId, anyUser)
  {
  }
}
