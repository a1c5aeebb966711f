/** The insurance-company registry: a table of companies keyed by id in which
    no two companies share a name. Creating, renaming and deleting keep the
    names unique; an update changes only the fields its request carries. */
module InsuranceCompanies {
  import opened Common

  /** A stored insurance company. */
  datatype Company = Company(
    name: string,
    contactPerson: Option<string>,
    phone: Option<string>,
    email: Option<string>,
    address: Option<string>,
    isActive: bool)

  /** The body of a create request; `None` marks a key the body does not
      carry (for `email`, also a null). */
  datatype CompanyInput = CompanyInput(
    name: Option<string>,
    contactPerson: Option<string>,
    phone: Option<string>,
    email: Option<string>,
    address: Option<string>,
    isActive: Option<bool>)

  /** The body of an update request: each field is kept or set. */
  datatype CompanyPatch = CompanyPatch(
    name: Patch<string>,
    contactPerson: Patch<Option<string>>,
    phone: Patch<Option<string>>,
    email: Patch<Option<string>>,
    address: Patch<Option<string>>,
    isActive: Patch<bool>)

  /** The email is checked only when it is a non-empty string. */
  predicate EmailRejected(email: Option<string>, validEmail: string -> bool) {
    email.Some? && email.value != "" && !validEmail(email.value)
  }

  /** Some company in the table has this name. */
  predicate NameTaken(companies: map<nat, Company>, name: string) {
    exists id :: id in companies && companies[id].name == name
  }

  /** No two companies of the table share a name. */
  predicate UniqueNames(companies: map<nat, Company>) {
    forall i, j :: i in companies && j in companies && companies[i].name == companies[j].name ==> i == j
  }

  /** The decision of a create request, in the order the handler checks:
      a missing name, then a malformed email, then a name already in use. */
  function CheckCreate(companies: map<nat, Company>, input: CompanyInput, validEmail: string -> bool): (r: Outcome)
    ensures r.Success? <==>
              input.name.Some? && !EmailRejected(input.email, validEmail) && !NameTaken(companies, input.name.value)
    ensures input.name.None? ==> r == Failure(MissingField("name"))
    ensures (input.name.Some? && EmailRejected(input.email, validEmail)) ==> r == Failure(InvalidValue("email"))
    ensures r.Failure? && input.name.Some? && !EmailRejected(input.email, validEmail) ==>
              r.error == DuplicateName
  {
    if input.name.None? then Failure(MissingField("name"))
    else if EmailRejected(input.email, validEmail) then Failure(InvalidValue("email"))
    else if NameTaken(companies, input.name.value) then Failure(DuplicateName)
    else Success
  }

  /** The company a create request stores; `is_active` defaults to true. */
  function NewCompany(input: CompanyInput): (c: Company)
    requires input.name.Some?
    ensures c.name == input.name.value && c.email == input.email
    ensures c.contactPerson == input.contactPerson && c.phone == input.phone && c.address == input.address
    ensures c.isActive <==> input.isActive != Some(false)
  {
    Company(input.name.value, input.contactPerson, input.phone, input.email, input.address,
            input.isActive.GetOr(true))
  }

  /** The decision of an update request: an unknown id, then a malformed
      email, then a new name that another company already holds. Keeping the
      company's own name is not a conflict. */
  function CheckUpdate(companies: map<nat, Company>, id: nat, patch: CompanyPatch, validEmail: string -> bool): (r: Outcome)
    ensures id !in companies ==> r == Failure(NotFound("Insurance company"))
    ensures r.Success? <==>
              id in companies
              && !(patch.email.Set? && EmailRejected(patch.email.value, validEmail))
              && !(patch.name.Set? && patch.name.value != companies[id].name && NameTaken(companies, patch.name.value))
    ensures (id in companies && patch.email.Set? && EmailRejected(patch.email.value, validEmail)) ==>
              r == Failure(InvalidValue("email"))
    ensures r.Failure? && id in companies && !(patch.email.Set? && EmailRejected(patch.email.value, validEmail)) ==>
              r.error == DuplicateName
  {
    if id !in companies then Failure(NotFound("Insurance company"))
    else if patch.email.Set? && EmailRejected(patch.email.value, validEmail) then Failure(InvalidValue("email"))
    else if patch.name.Set? && patch.name.value != companies[id].name && NameTaken(companies, patch.name.value) then
      Failure(DuplicateName)
    else Success
  }

  /** The company after a partial update. */
  function PatchCompany(c: Company, patch: CompanyPatch): Company {
    Company(
      Common.Patched(patch.name, c.name),
      Common.Patched(patch.contactPerson, c.contactPerson),
      Common.Patched(patch.phone, c.phone),
      Common.Patched(patch.email, c.email),
      Common.Patched(patch.address, c.address),
      Common.Patched(patch.isActive, c.isActive))
  }

  /** A field the update does not carry keeps its value, one it carries takes
      the new value. */
  lemma PatchChangesOnlySuppliedFields(c: Company, patch: CompanyPatch)
    ensures var d := PatchCompany(c, patch);
            (patch.name.Keep? ==> d.name == c.name) && (patch.name.Set? ==> d.name == patch.name.value)
            && (patch.contactPerson.Keep? ==> d.contactPerson == c.contactPerson)
            && (patch.contactPerson.Set? ==> d.contactPerson == patch.contactPerson.value)
            && (patch.phone.Keep? ==> d.phone == c.phone) && (patch.phone.Set? ==> d.phone == patch.phone.value)
            && (patch.email.Keep? ==> d.email == c.email) && (patch.email.Set? ==> d.email == patch.email.value)
            && (patch.address.Keep? ==> d.address == c.address)
            && (patch.address.Set? ==> d.address == patch.address.value)
            && (patch.isActive.Keep? ==> d.isActive == c.isActive)
            && (patch.isActive.Set? ==> d.isActive == patch.isActive.value)
  {
  }

  /** An empty update leaves the company as it was. */
  lemma EmptyPatchIsIdentity(c: Company)
    ensures PatchCompany(c, CompanyPatch(Keep, Keep, Keep, Keep, Keep, Keep)) == c
  {
  }

  /** An accepted create adds a company whose name no other company holds. */
  lemma CreateKeepsNamesUnique(companies: map<nat, Company>, id: nat, input: CompanyInput,
                                 validEmail: string -> bool)
    requires UniqueNames(companies) && id !in companies
    requires CheckCreate(companies, input, validEmail).Success?
    ensures UniqueNames(companies[id := NewCompany(input)])
  {
  }

  /** An accepted update keeps the names unique: a changed name was held by
      no company, and an unchanged one is the company's own. */
  lemma UpdateKeepsNamesUnique(companies: map<nat, Company>, id: nat, patch: CompanyPatch,
                                 validEmail: string -> bool)
    requires UniqueNames(companies)
    requires CheckUpdate(companies, id, patch, validEmail).Success?
    ensures UniqueNames(companies[id := PatchCompany(companies[id], patch)])
  {
  }

  /** Removing a company keeps the names unique. */
  lemma DeleteKeepsNamesUnique(companies: map<nat, Company>, id: nat)
    requires UniqueNames(companies)
    ensures UniqueNames(companies - {id})
  {
  }

  /** The registry: the company table and the next id the database hands out. */
  class InsuranceRegistry {
    var companies: map<nat, Company>
    var nextId: nat

    ghost predicate Valid()
      reads this
    {
      (forall id :: id in companies ==> id < nextId) && UniqueNames(companies)
    }

    constructor ()
      ensures Valid() && companies == map[] && nextId == 1
    {
      companies := map[];
      nextId := 1;
    }

    /** GET /<id>: the stored company, or 404. */
    function Get(id: nat): (r: Result<Company>)
      reads this
      ensures r.Ok? <==> id in companies
      ensures r.Ok? ==> r.value == companies[id]
      ensures r.Err? ==> r.error == NotFound("Insurance company")
    {
      if id in companies then Ok(companies[id]) else Err(NotFound("Insurance company"))
    }

    /** POST: store a new company under a fresh id, or refuse and change
        nothing. */
    method Create(input: CompanyInput, validEmail: string -> bool) returns (r: Result<nat>)
      requires Valid()
      modifies this
      ensures Valid()
      ensures r.Err? <==> CheckCreate(old(companies), input, validEmail).Failure?
      ensures r.Err? ==> r.error == CheckCreate(old(companies), input, validEmail).error && unchanged(this)
      ensures r.Ok? ==> r.value == old(nextId) && r.value !in old(companies)
                        && companies == old(companies)[r.value := NewCompany(input)]
                        && nextId == old(nextId) + 1
    {
      var check := CheckCreate(companies, input, validEmail);
      if check.Failure? {
        return Err(check.error);
      }
      CreateKeepsNamesUnique(companies, nextId, input, validEmail);
      companies := companies[nextId := NewCompany(input)];
      r := Ok(nextId);
      nextId := nextId + 1;
    }

    /** PUT /<id>: apply the fields the request carries, or refuse and change
        nothing. */
    method Update(id: nat, patch: CompanyPatch, validEmail: string -> bool) returns (r: Outcome)
      requires Valid()
      modifies this
      ensures Valid()
      ensures r == CheckUpdate(old(companies), id, patch, validEmail)
      ensures r.Failure? ==> unchanged(this)
      ensures r.Success? ==> companies == old(companies)[id := PatchCompany(old(companies)[id], patch)]
                             && nextId == old(nextId)
    {
      r := CheckUpdate(companies, id, patch, validEmail);
      if r.Success? {
        UpdateKeepsNamesUnique(companies, id, patch, validEmail);
        companies := companies[id := PatchCompany(companies[id], patch)];
      }
    }

    /** DELETE /<id>: remove exactly that company, or answer 404. */
    method Delete(id: nat) returns (r: Outcome)
      requires Valid()
      modifies this
      ensures Valid()
      ensures r.Success? <==> id in old(companies)
      ensures r.Failure? ==> r.error == NotFound("Insurance company") && unchanged(this)
      ensures r.Success? ==> companies == old(companies) - {id} && nextId == old(nextId)
    {
      if id !in companies {
        return Failure(NotFound("Insurance company"));
      }
      DeleteKeepsNamesUnique(companies, id);
      companies := companies - {id};
      r := Success;
    }
  }
}
