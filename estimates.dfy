/** The estimate workflow of backend/routes/estimates.py: an estimate starts
    `pending`, only a pending estimate may be edited, deleted, approved,
    rejected or have its lines changed, and the four totals are recomputed
    after every line change.

    `Estimate` is one row with its owned part and labour lines; its methods
    are the route handlers from the point where the estimate has been looked
    up. `EstimateBook` is the estimates table: it creates estimates (with
    their numbers), finds them (the "Estimate not found" answer every handler
    starts with) and deletes them. The acting user, the clock and the
    existence of referenced customers, vehicles and insurance companies are
    parameters. */
module Estimates {
  import opened Common
  import opened LineItems
  import EstimateNumbers

  datatype Status = Pending | Approved | Rejected

  /** What `datetime.fromisoformat(text).date()` makes of a supplied date. */
  datatype DateText = ParsedDate(date: string) | Unparsable

  /** A truthy JSON id: present, not null and not 0. */
  predicate Truthy(x: Option<int>) {
    x.Some? && x.value != 0
  }

  /** The decoded body of "create estimate". `completionDate` is None when
      the key is absent or falsy. */
  datatype EstimateInput = EstimateInput(
    customerId: Option<int>,
    vehicleId: Option<int>,
    insuranceCompanyId: Option<int>,
    claimNumber: Option<string>,
    isInsuranceClaim: Option<bool>,
    description: Option<string>,
    completionDate: Option<DateText>)

  /** The checks "create estimate" makes, in its order: the required fields
      customer_id then vehicle_id, the customer, the vehicle, a truthy
      insurance company id, and the completion date. */
  function CheckNewEstimate(input: EstimateInput, customers: set<int>, vehicles: set<int>, companies: set<int>): (r: Outcome)
    ensures r.Success? <==>
              input.customerId.Some? && input.vehicleId.Some? &&
              input.customerId.value in customers && input.vehicleId.value in vehicles &&
              (Truthy(input.insuranceCompanyId) ==> input.insuranceCompanyId.value in companies) &&
              input.completionDate != Some(Unparsable)
    ensures input.customerId.None? ==> r == Failure(MissingField("customer_id"))
    ensures input.customerId.Some? && input.vehicleId.None? ==> r == Failure(MissingField("vehicle_id"))
    ensures input.customerId.Some? && input.vehicleId.Some? && input.customerId.value !in customers ==>
              r == Failure(NotFound("Customer"))
    ensures (input.customerId.Some? && input.vehicleId.Some? && input.customerId.value in customers &&
             input.vehicleId.value !in vehicles) ==> r == Failure(NotFound("Vehicle"))
    ensures (input.customerId.Some? && input.vehicleId.Some? && input.customerId.value in customers &&
             input.vehicleId.value in vehicles && Truthy(input.insuranceCompanyId) &&
             input.insuranceCompanyId.value !in companies) ==> r == Failure(NotFound("Insurance company"))
    ensures r.Failure? && r.error.InvalidValue? ==> input.completionDate == Some(Unparsable)
  {
    if input.customerId.None? then Failure(MissingField("customer_id"))
    else if input.vehicleId.None? then Failure(MissingField("vehicle_id"))
    else if input.customerId.value !in customers then Failure(NotFound("Customer"))
    else if input.vehicleId.value !in vehicles then Failure(NotFound("Vehicle"))
    else if Truthy(input.insuranceCompanyId) && input.insuranceCompanyId.value !in companies then
      Failure(NotFound("Insurance company"))
    else if input.completionDate == Some(Unparsable) then Failure(InvalidValue("estimated_completion_date"))
    else Success
  }

  /** The decoded body of "update estimate": `Keep` where the key is absent;
      `completionDate` is `Set(None)` for a falsy value, which clears the date. */
  datatype EstimatePatch = EstimatePatch(
    customerId: Patch<int>,
    vehicleId: Patch<int>,
    insuranceCompanyId: Patch<Option<int>>,
    claimNumber: Patch<Option<string>>,
    isInsuranceClaim: Patch<bool>,
    description: Patch<Option<string>>,
    completionDate: Patch<Option<DateText>>)

  /** The checks "update estimate" makes on a pending estimate, in its order:
      a supplied customer, a supplied vehicle, a supplied truthy insurance
      company id, and a supplied non-empty completion date. */
  function CheckEstimatePatch(patch: EstimatePatch, customers: set<int>, vehicles: set<int>, companies: set<int>): (r: Outcome)
    ensures r.Success? <==>
              (patch.customerId.Set? ==> patch.customerId.value in customers) &&
              (patch.vehicleId.Set? ==> patch.vehicleId.value in vehicles) &&
              (patch.insuranceCompanyId.Set? && Truthy(patch.insuranceCompanyId.value) ==>
                 patch.insuranceCompanyId.value.value in companies) &&
              patch.completionDate != Set(Some(Unparsable))
    ensures patch.customerId.Set? && patch.customerId.value !in customers ==> r == Failure(NotFound("Customer"))
    ensures ((patch.customerId.Set? ==> patch.customerId.value in customers) &&
             patch.vehicleId.Set? && patch.vehicleId.value !in vehicles) ==> r == Failure(NotFound("Vehicle"))
    ensures ((patch.customerId.Set? ==> patch.customerId.value in customers) &&
             (patch.vehicleId.Set? ==> patch.vehicleId.value in vehicles) &&
             patch.insuranceCompanyId.Set? && Truthy(patch.insuranceCompanyId.value) &&
             patch.insuranceCompanyId.value.value !in companies) ==> r == Failure(NotFound("Insurance company"))
    ensures r.Failure? && r.error.InvalidValue? ==> patch.completionDate == Set(Some(Unparsable))
  {
    if patch.customerId.Set? && patch.customerId.value !in customers then Failure(NotFound("Customer"))
    else if patch.vehicleId.Set? && patch.vehicleId.value !in vehicles then Failure(NotFound("Vehicle"))
    else if patch.insuranceCompanyId.Set? && Truthy(patch.insuranceCompanyId.value) &&
            patch.insuranceCompanyId.value.value !in companies then
      Failure(NotFound("Insurance company"))
    else if patch.completionDate == Set(Some(Unparsable)) then Failure(InvalidValue("estimated_completion_date"))
    else Success
  }

  /** The stored completion date for a decoded one (checked not Unparsable). */
  function StoredDate(d: Option<DateText>): Option<string> {
    match d
    case Some(ParsedDate(text)) => Some(text)
    case _ => None
  }

  /** The mutable part of an estimate row, as one value. */
  datatype EstimateRecord = EstimateRecord(
    customerId: int,
    vehicleId: int,
    insuranceCompanyId: Option<int>,
    claimNumber: Option<string>,
    isInsuranceClaim: bool,
    description: Option<string>,
    completionDate: Option<string>,
    status: Status,
    approvedBy: Option<nat>,
    approvedAt: Option<int>,
    rejectionReason: Option<string>,
    parts: seq<Part>,
    labour: seq<Labour>,
    totals: Totals)

  /** The record after a checked "update estimate": supplied fields replace
      the stored ones. */
  function ApplyEstimatePatch(rec: EstimateRecord, patch: EstimatePatch): EstimateRecord {
    rec.(customerId := Patched(patch.customerId, rec.customerId),
         vehicleId := Patched(patch.vehicleId, rec.vehicleId),
         insuranceCompanyId := Patched(patch.insuranceCompanyId, rec.insuranceCompanyId),
         claimNumber := Patched(patch.claimNumber, rec.claimNumber),
         isInsuranceClaim := Patched(patch.isInsuranceClaim, rec.isInsuranceClaim),
         description := Patched(patch.description, rec.description),
         completionDate :=
           if patch.completionDate.Set? then StoredDate(patch.completionDate.value) else rec.completionDate)
  }

  /** No two lines of a kind share an id. */
  predicate DistinctIds(parts: seq<Part>, labour: seq<Labour>) {
    (forall i, j :: 0 <= i < j < |parts| ==> parts[i].id != parts[j].id) &&
    (forall i, j :: 0 <= i < j < |labour| ==> labour[i].id != labour[j].id)
  }

  predicate LinesValid(parts: seq<Part>, labour: seq<Labour>) {
    (forall i :: 0 <= i < |parts| ==> ValidPart(parts[i])) &&
    (forall i :: 0 <= i < |labour| ==> ValidLabour(labour[i])) &&
    DistinctIds(parts, labour)
  }

  /** Removing a part keeps the lines valid. */
  lemma RemovePartKeepsLinesValid(parts: seq<Part>, labour: seq<Labour>, i: nat)
    requires LinesValid(parts, labour) && i < |parts|
    ensures LinesValid(parts[..i] + parts[i + 1..], labour)
  {
    var rest := parts[..i] + parts[i + 1..];
    assert forall k :: 0 <= k < |rest| ==> rest[k] == parts[if k < i then k else k + 1];
  }

  /** Removing a labour line keeps the lines valid. */
  lemma RemoveLabourKeepsLinesValid(parts: seq<Part>, labour: seq<Labour>, i: nat)
    requires LinesValid(parts, labour) && i < |labour|
    ensures LinesValid(parts, labour[..i] + labour[i + 1..])
  {
    var rest := labour[..i] + labour[i + 1..];
    assert forall k :: 0 <= k < |rest| ==> rest[k] == labour[if k < i then k else k + 1];
  }

  class Estimate {
    const id: nat
    const number: string
    const createdBy: nat
    var customerId: int
    var vehicleId: int
    var insuranceCompanyId: Option<int>
    var claimNumber: Option<string>
    var isInsuranceClaim: bool
    var description: Option<string>
    var completionDate: Option<string>
    var status: Status
    var approvedBy: Option<nat>
    var approvedAt: Option<int>
    var rejectionReason: Option<string>
    var parts: seq<Part>
    var labour: seq<Labour>
    var partsTotal: real
    var labourTotal: real
    var taxAmount: real
    var grandTotal: real

    function StoredTotals(): Totals
      reads this
    {
      Totals(partsTotal, labourTotal, taxAmount, grandTotal)
    }

    function Record(): EstimateRecord
      reads this
    {
      EstimateRecord(customerId, vehicleId, insuranceCompanyId, claimNumber, isInsuranceClaim,
                     description, completionDate, status, approvedBy, approvedAt, rejectionReason,
                     parts, labour, StoredTotals())
    }

    /** Every line is valid and the stored totals are those of the lines. */
    ghost predicate Valid()
      reads this
    {
      LinesValid(parts, labour) && StoredTotals() == CalculateTotals(parts, labour)
    }

    constructor (id: nat, number: string, createdBy: nat, customerId: int, vehicleId: int,
                 insuranceCompanyId: Option<int>, claimNumber: Option<string>, isInsuranceClaim: bool,
                 description: Option<string>, completionDate: Option<string>)
      ensures Valid()
      ensures this.id == id && this.number == number && this.createdBy == createdBy
      ensures Record() == EstimateRecord(customerId, vehicleId, insuranceCompanyId, claimNumber,
                                         isInsuranceClaim, description, completionDate, Pending,
                                         None, None, None, [], [], Totals(0.0, 0.0, 0.0, 0.0))
    {
      this.id, this.number, this.createdBy := id, number, createdBy;
      this.customerId, this.vehicleId := customerId, vehicleId;
      this.insuranceCompanyId, this.claimNumber := insuranceCompanyId, claimNumber;
      this.isInsuranceClaim, this.description := isInsuranceClaim, description;
      this.completionDate := completionDate;
      status := Pending;
      approvedBy, approvedAt, rejectionReason := None, None, None;
      parts, labour := [], [];
      partsTotal, labourTotal, taxAmount, grandTotal := 0.0, 0.0, 0.0, 0.0;
    }

    /** `calculate_totals`: refreshes the stored totals from the lines. */
    method RecalculateTotals()
      modifies this
      ensures StoredTotals() == CalculateTotals(parts, labour)
      ensures Record() == old(Record()).(totals := CalculateTotals(parts, labour))
    {
      var t := CalculateTotals(parts, labour);
      partsTotal, labourTotal, taxAmount, grandTotal := t.parts, t.labour, t.tax, t.grand;
    }

    /** update_estimate: on a pending estimate, checks the supplied references
        and date and then replaces exactly the supplied fields. */
    method Update(patch: EstimatePatch, customers: set<int>, vehicles: set<int>, companies: set<int>)
      returns (r: Outcome)
      requires Valid()
      modifies this
      ensures Valid()
      ensures old(status) != Pending ==> r == Failure(InvalidState)
      ensures old(status) == Pending ==> r == CheckEstimatePatch(patch, customers, vehicles, companies)
      ensures r.Failure? ==> unchanged(this)
      ensures r.Success? ==> Record() == ApplyEstimatePatch(old(Record()), patch)
    {
      if status != Pending {
        return Failure(InvalidState);
      }
      r := CheckEstimatePatch(patch, customers, vehicles, companies);
      if r.Success? {
        ApplyPatch(patch);
      }
    }

    /** Replaces the fields a checked update supplies. */
    method ApplyPatch(patch: EstimatePatch)
      requires Valid()
      modifies this
      ensures Valid()
      ensures Record() == ApplyEstimatePatch(old(Record()), patch)
    {
      var next := ApplyEstimatePatch(Record(), patch);
      customerId, vehicleId, insuranceCompanyId := next.customerId, next.vehicleId, next.insuranceCompanyId;
      claimNumber, isInsuranceClaim, description := next.claimNumber, next.isInsuranceClaim, next.description;
      completionDate := next.completionDate;
    }

    /** approve_estimate: pending becomes approved, by `actor` at `now`, and
        any rejection reason is cleared. */
    method Approve(actor: nat, now: int) returns (r: Outcome)
      requires Valid()
      modifies this
      ensures Valid()
      ensures old(status) != Pending ==> r == Failure(InvalidState) && unchanged(this)
      ensures old(status) == Pending ==>
                r == Success &&
                Record() == old(Record()).(status := Approved, approvedBy := Some(actor),
                                           approvedAt := Some(now), rejectionReason := None)
    {
      if status != Pending {
        return Failure(InvalidState);
      }
      status := Approved;
      approvedBy := Some(actor);
      approvedAt := Some(now);
      rejectionReason := None;
      r := Success;
    }

    /** reject_estimate: pending becomes rejected, by `actor` at `now`, with
        the supplied reason (None when the body has none). */
    method Reject(actor: nat, now: int, reason: Option<string>) returns (r: Outcome)
      requires Valid()
      modifies this
      ensures Valid()
      ensures old(status) != Pending ==> r == Failure(InvalidState) && unchanged(this)
      ensures old(status) == Pending ==>
                r == Success &&
                Record() == old(Record()).(status := Rejected, approvedBy := Some(actor),
                                           approvedAt := Some(now), rejectionReason := reason)
    {
      if status != Pending {
        return Failure(InvalidState);
      }
      status := Rejected;
      approvedBy := Some(actor);
      approvedAt := Some(now);
      rejectionReason := reason;
      r := Success;
    }

    /** add_parts_to_estimate: on a pending estimate, validates the body,
        appends the new line (id `newId`, assigned by the database) and
        recalculates the totals. */
    method AddPart(newId: nat, input: PartInput) returns (r: Result<Part>)
      requires Valid()
      requires forall i :: 0 <= i < |parts| ==> parts[i].id != newId
      modifies this
      ensures Valid()
      ensures old(status) != Pending ==> r == Err(InvalidState)
      ensures old(status) == Pending ==> r == NewPart(newId, input)
      ensures r.Err? ==> unchanged(this)
      ensures r.Ok? ==>
                Record() == old(Record()).(parts := old(parts) + [r.value],
                                           totals := CalculateTotals(old(parts) + [r.value], old(labour)))
    {
      if status != Pending {
        return Err(InvalidState);
      }
      r := NewPart(newId, input);
      if r.Err? {
        return;
      }
      parts := parts + [r.value];
      RecalculateTotals();
    }

    /** update_estimate_part: on a pending estimate, the part must exist
        (`owner` is the estimate the part row with id `partId` belongs to, None
        when there is no such row) and belong to this estimate; the supplied
        fields are validated and applied, the line total and the estimate's
        totals are recomputed. */
    method UpdatePart(partId: nat, owner: Option<nat>, patch: PartPatch) returns (r: Result<Part>)
      requires Valid()
      requires owner == Some(id) <==> IndexOf(parts, PartId, partId).Some?
      modifies this
      ensures Valid()
      ensures old(status) != Pending ==> r == Err(InvalidState)
      ensures old(status) == Pending && owner.None? ==> r == Err(NotFound("Part"))
      ensures old(status) == Pending && owner.Some? && owner.value != id ==> r == Err(NotOwned("Part"))
      ensures old(status) == Pending && owner == Some(id) ==>
                r == PatchPart(old(parts)[IndexOf(old(parts), PartId, partId).value], patch)
      ensures r.Err? ==> unchanged(this)
      ensures r.Ok? ==>
                var i := IndexOf(old(parts), PartId, partId).value;
                Record() == old(Record()).(parts := old(parts)[i := r.value],
                                           totals := CalculateTotals(old(parts)[i := r.value], old(labour)))
    {
      if status != Pending {
        return Err(InvalidState);
      }
      if owner.None? {
        return Err(NotFound("Part"));
      }
      if owner.value != id {
        return Err(NotOwned("Part"));
      }
      var i := IndexOf(parts, PartId, partId).value;
      r := PatchPart(parts[i], patch);
      if r.Err? {
        return;
      }
      parts := parts[i := r.value];
      RecalculateTotals();
    }

    /** delete_estimate_part: on a pending estimate, removes the part if it
        exists and belongs to this estimate, then recalculates the totals. */
    method DeletePart(partId: nat, owner: Option<nat>) returns (r: Outcome)
      requires Valid()
      requires owner == Some(id) <==> IndexOf(parts, PartId, partId).Some?
      modifies this
      ensures Valid()
      ensures old(status) != Pending ==> r == Failure(InvalidState)
      ensures old(status) == Pending && owner.None? ==> r == Failure(NotFound("Part"))
      ensures old(status) == Pending && owner.Some? && owner.value != id ==> r == Failure(NotOwned("Part"))
      ensures old(status) == Pending && owner == Some(id) ==> r == Success
      ensures r.Failure? ==> unchanged(this)
      ensures r.Success? ==>
                var i := IndexOf(old(parts), PartId, partId).value;
                var rest := old(parts)[..i] + old(parts)[i + 1..];
                Record() == old(Record()).(parts := rest, totals := CalculateTotals(rest, old(labour)))
    {
      if status != Pending {
        return Failure(InvalidState);
      }
      if owner.None? {
        return Failure(NotFound("Part"));
      }
      if owner.value != id {
        return Failure(NotOwned("Part"));
      }
      var i := IndexOf(parts, PartId, partId).value;
      RemovePartKeepsLinesValid(parts, labour, i);
      parts := parts[..i] + parts[i + 1..];
      RecalculateTotals();
      r := Success;
    }

    /** add_labour_to_estimate: on a pending estimate, validates the body,
        appends the new line (id `newId`, assigned by the database) and
        recalculates the totals. */
    method AddLabour(newId: nat, input: LabourInput) returns (r: Result<Labour>)
      requires Valid()
      requires forall i :: 0 <= i < |labour| ==> labour[i].id != newId
      modifies this
      ensures Valid()
      ensures old(status) != Pending ==> r == Err(InvalidState)
      ensures old(status) == Pending ==> r == NewLabour(newId, input)
      ensures r.Err? ==> unchanged(this)
      ensures r.Ok? ==>
                Record() == old(Record()).(labour := old(labour) + [r.value],
                                           totals := CalculateTotals(old(parts), old(labour) + [r.value]))
    {
      if status != Pending {
        return Err(InvalidState);
      }
      r := NewLabour(newId, input);
      if r.Err? {
        return;
      }
      labour := labour + [r.value];
      RecalculateTotals();
    }

    /** update_estimate_labour: as UpdatePart, for a labour line. */
    method UpdateLabour(labourId: nat, owner: Option<nat>, patch: LabourPatch) returns (r: Result<Labour>)
      requires Valid()
      requires owner == Some(id) <==> IndexOf(labour, LabourId, labourId).Some?
      modifies this
      ensures Valid()
      ensures old(status) != Pending ==> r == Err(InvalidState)
      ensures old(status) == Pending && owner.None? ==> r == Err(NotFound("Labour"))
      ensures old(status) == Pending && owner.Some? && owner.value != id ==> r == Err(NotOwned("Labour"))
      ensures old(status) == Pending && owner == Some(id) ==>
                r == PatchLabour(old(labour)[IndexOf(old(labour), LabourId, labourId).value], patch)
      ensures r.Err? ==> unchanged(this)
      ensures r.Ok? ==>
                var i := IndexOf(old(labour), LabourId, labourId).value;
                Record() == old(Record()).(labour := old(labour)[i := r.value],
                                           totals := CalculateTotals(old(parts), old(labour)[i := r.value]))
    {
      if status != Pending {
        return Err(InvalidState);
      }
      if owner.None? {
        return Err(NotFound("Labour"));
      }
      if owner.value != id {
        return Err(NotOwned("Labour"));
      }
      var i := IndexOf(labour, LabourId, labourId).value;
      r := PatchLabour(labour[i], patch);
      if r.Err? {
        return;
      }
      labour := labour[i := r.value];
      RecalculateTotals();
    }

    /** delete_estimate_labour: as DeletePart, for a labour line. */
    method DeleteLabour(labourId: nat, owner: Option<nat>) returns (r: Outcome)
      requires Valid()
      requires owner == Some(id) <==> IndexOf(labour, LabourId, labourId).Some?
      modifies this
      ensures Valid()
      ensures old(status) != Pending ==> r == Failure(InvalidState)
      ensures old(status) == Pending && owner.None? ==> r == Failure(NotFound("Labour"))
      ensures old(status) == Pending && owner.Some? && owner.value != id ==> r == Failure(NotOwned("Labour"))
      ensures old(status) == Pending && owner == Some(id) ==> r == Success
      ensures r.Failure? ==> unchanged(this)
      ensures r.Success? ==>
                var i := IndexOf(old(labour), LabourId, labourId).value;
                var rest := old(labour)[..i] + old(labour)[i + 1..];
                Record() == old(Record()).(labour := rest, totals := CalculateTotals(old(parts), rest))
    {
      if status != Pending {
        return Failure(InvalidState);
      }
      if owner.None? {
        return Failure(NotFound("Labour"));
      }
      if owner.value != id {
        return Failure(NotOwned("Labour"));
      }
      var i := IndexOf(labour, LabourId, labourId).value;
      RemoveLabourKeepsLinesValid(parts, labour, i);
      labour := labour[..i] + labour[i + 1..];
      RecalculateTotals();
      r := Success;
    }
  }

  // ---------------------------------------------------------------------------
  // The estimates table

  function NumbersOf(rows: seq<Estimate>): (ns: seq<string>)
    ensures |ns| == |rows| && forall i :: 0 <= i < |rows| ==> ns[i] == rows[i].number
  {
    seq(|rows|, i requires 0 <= i < |rows| => rows[i].number)
  }

  function EstimateId(e: Estimate): nat { e.id }

  /** The largest `per_page` list_estimates serves. */
  const MaxPageSize: int := 100

  /** list_estimates' page size: the requested `per_page` (10 when absent or
      not an integer), capped at 100. */
  function PageSize(requested: Option<int>): (n: int)
    ensures n <= MaxPageSize
    ensures n == MaxPageSize || n == requested.GetOr(10)
    ensures requested.GetOr(10) <= MaxPageSize ==> n == requested.GetOr(10)
  {
    var asked := requested.GetOr(10);
    if asked < MaxPageSize then asked else MaxPageSize
  }

  class EstimateBook {
    var rows: seq<Estimate>
    var nextId: nat

    /** Ids and estimate numbers are unique, and ids are below `nextId`. */
    ghost predicate Valid()
      reads this
    {
      (forall i :: 0 <= i < |rows| ==> rows[i].id < nextId) &&
      (forall i, j :: 0 <= i < j < |rows| ==> rows[i].id != rows[j].id) &&
      (forall i, j :: 0 <= i < j < |rows| ==> rows[i].number != rows[j].number)
    }

    constructor ()
      ensures Valid() && rows == [] && nextId == 0
    {
      rows, nextId := [], 0;
    }

    /** `Estimate.query.get(id)`, answering "Estimate not found" when absent. */
    function Lookup(id: nat): (r: Result<Estimate>)
      reads this
      ensures r.Ok? <==> exists i :: 0 <= i < |rows| && rows[i].id == id
      ensures r.Ok? ==> r.value in rows && r.value.id == id
      ensures r.Err? ==> r.error == NotFound("Estimate")
    {
      match IndexOf(rows, EstimateId, id)
      case Some(i) => Ok(rows[i])
      case None => Err(NotFound("Estimate"))
    }

    /** create_estimate: after the checks, a new pending estimate created by
        `actor`, numbered with the day's next number, with no lines and zero
        totals. */
    method Create(input: EstimateInput, actor: nat, date: string,
                  customers: set<int>, vehicles: set<int>, companies: set<int>)
      returns (r: Result<Estimate>)
      requires Valid()
      modifies this
      ensures Valid()
      ensures r.Err? <==> CheckNewEstimate(input, customers, vehicles, companies).Failure?
      ensures r.Err? ==> r.error == CheckNewEstimate(input, customers, vehicles, companies).error
      ensures r.Err? ==> unchanged(this)
      ensures r.Ok? ==>
                var e := r.value;
                fresh(e) && rows == old(rows) + [e] && nextId == old(nextId) + 1 &&
                e.Valid() && e.id == old(nextId) && e.createdBy == actor &&
                e.number == EstimateNumbers.NextNumber(date, NumbersOf(old(rows))) &&
                e.Record() == EstimateRecord(input.customerId.value, input.vehicleId.value,
                                             input.insuranceCompanyId, input.claimNumber,
                                             input.isInsuranceClaim.GetOr(false), input.description,
                                             StoredDate(input.completionDate), Pending,
                                             None, None, None, [], [], Totals(0.0, 0.0, 0.0, 0.0))
    {
      var check := CheckNewEstimate(input, customers, vehicles, companies);
      if check.Failure? {
        return Err(check.error);
      }
      var number := EstimateNumbers.NextNumber(date, NumbersOf(rows));
      var e := new Estimate(nextId, number, actor, input.customerId.value, input.vehicleId.value,
                            input.insuranceCompanyId, input.claimNumber,
                            input.isInsuranceClaim.GetOr(false), input.description,
                            StoredDate(input.completionDate));
      rows := rows + [e];
      nextId := nextId + 1;
      r := Ok(e);
    }

    /** delete_estimate: only a pending estimate is deleted, and with it its
        lines. */
    method Delete(id: nat) returns (r: Outcome)
      requires Valid()
      modifies this
      ensures Valid()
      ensures IndexOf(old(rows), EstimateId, id).None? ==> r == Failure(NotFound("Estimate"))
      ensures IndexOf(old(rows), EstimateId, id).Some? && old(rows[IndexOf(rows, EstimateId, id).value].status) != Pending ==>
                r == Failure(InvalidState)
      ensures IndexOf(old(rows), EstimateId, id).Some? && old(rows[IndexOf(rows, EstimateId, id).value].status) == Pending ==>
                r == Success
      ensures r.Failure? ==> unchanged(this)
      ensures r.Success? ==>
                var i := IndexOf(old(rows), EstimateId, id).value;
                old(rows[i].status) == Pending &&
                rows == old(rows)[..i] + old(rows)[i + 1..] && nextId == old(nextId)
    {
      var found := IndexOf(rows, EstimateId, id);
      if found.None? {
        return Failure(NotFound("Estimate"));
      }
      var i := found.value;
      if rows[i].status != Pending {
        return Failure(InvalidState);
      }
      rows := rows[..i] + rows[i + 1..];
      r := Success;
    }
  }

  // ---------------------------------------------------------------------------
  // The workflow, end to end

  /** The three parts of the end-to-end test, added to a pending estimate
      with no parts. */
  method AddTestParts(e: Estimate)
    requires e.Valid() && e.status == Pending && e.parts == []
    modifies e
    ensures e.Valid() && e.status == Pending && e.labour == old(e.labour)
    ensures PartPrices(e.parts) == [450.0, 325.0, 325.0]
  {
    var p1 := e.AddPart(1, PartInput(Some("Front Bumper"), Some("BMP-FRT-001"), Some(1), Some(450.0), Some("OEM part")));
    assert PartPrices(e.parts) == [450.0] && e.parts[0].id == 1;
    var p2 := e.AddPart(2, PartInput(Some("Headlight Assembly - Left"), Some("HDL-LFT-002"), Some(1), Some(325.0), None));
    assert PartPrices(e.parts) == [450.0, 325.0] && e.parts[1].id == 2;
    var p3 := e.AddPart(3, PartInput(Some("Headlight Assembly - Right"), Some("HDL-RGT-002"), Some(1), Some(325.0), None));
  }

  /** The three labour lines of the end-to-end test, added to a pending
      estimate with no labour. */
  method AddTestLabour(e: Estimate)
    requires e.Valid() && e.status == Pending && e.labour == []
    modifies e
    ensures e.Valid() && e.status == Pending && e.parts == old(e.parts)
    ensures LabourCosts(e.labour) == [212.5, 127.5, 285.0]
  {
    var l1 := e.AddLabour(1, LabourInput(Some("Remove and replace front bumper"), Some(2.5), Some(85.0), Some("Includes alignment")));
    assert LabourCosts(e.labour) == [212.5] && e.labour[0].id == 1;
    var l2 := e.AddLabour(2, LabourInput(Some("Install headlight assemblies"), Some(1.5), Some(85.0), None));
    assert LabourCosts(e.labour) == [212.5, 127.5] && e.labour[1].id == 2;
    var l3 := e.AddLabour(3, LabourInput(Some("Paint and finish work"), Some(3.0), Some(95.0), None));
  }

  /** The figures of the end-to-end test: three parts (450 + 325 + 325) and
      three labour lines (2.5 h and 1.5 h at 85, 3 h at 95) give parts
      1100.00, labour 625.00, tax 172.50 and grand total 1897.50. */
  method GrandTotalScenario() returns (t: Totals)
    ensures t == Totals(1100.0, 625.0, 172.5, 1897.5)
  {
    var e := new Estimate(1, "EST-20260101-0001", 7, 1, 1, Some(1), Some("CLM-2026-001"), true,
                          Some("Collision repair - front bumper and headlights"), Some("2026-02-25"));
    AddTestParts(e);
    AddTestLabour(e);
    TestFigureTotals(e.parts, e.labour);
    t := e.StoredTotals();
  }

  /** An approved estimate stays as it is: a second approval, a rejection,
      an edit and a new line all fail with the invalid-state error. */
  method ApprovedIsFinal() returns (second: Outcome, reject: Outcome, edit: Outcome,
                                    addPart: Result<Part>, status: Status)
    ensures second == Failure(InvalidState) && reject == Failure(InvalidState)
    ensures edit == Failure(InvalidState) && addPart == Err(InvalidState)
    ensures status == Approved
  {
    var e := new Estimate(1, "EST-20260101-0001", 7, 1, 2, None, None, false, None, None);
    var first := e.Approve(3, 1000);
    second := e.Approve(3, 2000);
    reject := e.Reject(3, 3000, Some("late"));
    edit := e.Update(EstimatePatch(Keep, Keep, Keep, Keep, Keep, Set(Some("Updated")), Keep), {1}, {2}, {});
    addPart := e.AddPart(1, PartInput(Some("Bolt"), None, Some(1), Some(0.0), None));
    status := e.status;
  }

  /** An approved estimate cannot be deleted from the table. */
  method ApprovedIsKept() returns (delete: Outcome, count: nat)
    ensures delete == Failure(InvalidState) && count == 1
  {
    var book := new EstimateBook();
    var created := book.Create(EstimateInput(Some(1), Some(2), None, None, None, None, None),
                               7, "20260101", {1}, {2}, {});
    var e := created.value;
    assert book.rows == [e];
    var first := e.Approve(3, 1000);
    assert IndexOf(book.rows, EstimateId, e.id) == Some(0);
    delete := book.Delete(e.id);
    count := |book.rows|;
  }
}
