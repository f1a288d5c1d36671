// Company and department endpoints (backend/routers/company.py): keyed
// tables whose create and update operations keep registration numbers
// unique, and department codes unique within a company.

module CompanyRouter {
  import opened Strings
  import opened Tables

  /** The fields of a `CompanyCreate` payload, all of which an update overwrites. */
  datatype CompanyData = CompanyData(
    name: string,
    registrationNumber: string,
    taxOffice: string,
    address: string,
    postcode: string,
    phone: Option<string>,
    email: Option<string>)

  datatype Company = Company(id: int, data: CompanyData)

  datatype Department = Department(id: int, name: string, code: string, companyId: int)

  /** The `DepartmentCreate` payload used by updates: it carries a company id. */
  datatype DepartmentData = DepartmentData(name: string, code: string, companyId: int)

  /** An endpoint's answer: a status with a body, or an HTTPException. */
  datatype Response<T> = Success(status: nat, value: T) | HttpError(status: nat, detail: string)

  const CompanyNotFound := "Company not found"
  const DepartmentNotFound := "Department not found"
  const DuplicateRegistrationOnCreate := "Company with this registration number already exists"
  const DuplicateRegistrationOnUpdate := "Registration number already exists"
  const DuplicateCodeOnCreate := "Department with this code already exists in this company"
  const DuplicateCodeOnUpdate := "Department code already exists in this company"

  predicate RegistrationInUse(cs: seq<Company>, registration: string)
  {
    exists i :: 0 <= i < |cs| && cs[i].data.registrationNumber == registration
  }

  predicate CodeInUse(ds: seq<Department>, companyId: int, code: string)
  {
    exists i :: 0 <= i < |ds| && ds[i].companyId == companyId && ds[i].code == code
  }

  predicate HasCompany(cs: seq<Company>, companyId: int)
  {
    exists i :: 0 <= i < |cs| && cs[i].id == companyId
  }

  predicate HasDepartment(ds: seq<Department>, departmentId: int)
  {
    exists i :: 0 <= i < |ds| && ds[i].id == departmentId
  }

  /** A company other than `companyId` holds the registration number. */
  predicate RegistrationHeldByOther(cs: seq<Company>, registration: string, companyId: int)
  {
    exists i :: 0 <= i < |cs| && cs[i].id != companyId && cs[i].data.registrationNumber == registration
  }

  /** Two company rows are distinct rows that do not share a registration number. */
  predicate DistinctCompanies(a: Company, b: Company)
  {
    a.id != b.id && a.data.registrationNumber != b.data.registrationNumber
  }

  /** Two department rows are distinct rows, and do not share a code within one company. */
  predicate DistinctDepartments(a: Department, b: Department)
  {
    a.id != b.id && (a.companyId == b.companyId ==> a.code != b.code)
  }

  /** Ids are positive, below the next id to hand out, and no two rows clash. */
  predicate CompanyTableValid(cs: seq<Company>, nextId: int)
  {
    0 < nextId &&
    (forall i :: 0 <= i < |cs| ==> 0 < cs[i].id < nextId) &&
    (forall i, j :: 0 <= i < j < |cs| ==> DistinctCompanies(cs[i], cs[j]))
  }

  predicate DepartmentTableValid(ds: seq<Department>, nextId: int)
  {
    0 < nextId &&
    (forall i :: 0 <= i < |ds| ==> 0 < ds[i].id < nextId) &&
    (forall i, j :: 0 <= i < j < |ds| ==> DistinctDepartments(ds[i], ds[j]))
  }

  /** The row that `update_department` leaves behind: every payload field overwritten. */
  function Overwritten(d: Department, data: DepartmentData): (r: Department)
    ensures r.id == d.id && r.name == data.name && r.code == data.code && r.companyId == data.companyId
  {
    Department(d.id, data.name, data.code, data.companyId)
  }

  /** `update_department` as written: the code conflict is looked up in the
      department's current company, and only when the code changes, but the
      payload's company id is then written as well. */
  function UpdateDepartmentAsWritten(ds: seq<Department>, departmentId: int, data: DepartmentData)
    : (r: (seq<Department>, Response<Department>))
    ensures |r.0| == |ds|
  {
    match FirstMatch(ds, (d: Department) => d.id == departmentId)
    case None => (ds, HttpError(404, DepartmentNotFound))
    case Some(i) =>
      if data.code != ds[i].code && CodeInUseByOther(ds, ds[i].companyId, data.code, departmentId)
      then (ds, HttpError(400, DuplicateCodeOnUpdate))
      else
        var d := Overwritten(ds[i], data);
        (ds[i := d], Success(200, d))
  }

  predicate CodeInUseByOther(ds: seq<Department>, companyId: int, code: string, departmentId: int)
  {
    exists i :: 0 <= i < |ds| && ds[i].companyId == companyId && ds[i].code == code && ds[i].id != departmentId
  }

  /** Moving a department into another company that already uses its code
      succeeds as written and leaves two departments with one code there. */
  lemma UpdateDepartmentAsWrittenDuplicatesCode()
    ensures var ds := [Department(1, "Payroll", "PAY", 1), Department(2, "Payroll", "PAY", 2)];
            var r := UpdateDepartmentAsWritten(ds, 1, DepartmentData("Payroll", "PAY", 2));
            DepartmentTableValid(ds, 3) && r.1.Success? && !DepartmentTableValid(r.0, 3)
  {
    var ds := [Department(1, "Payroll", "PAY", 1), Department(2, "Payroll", "PAY", 2)];
    var r := UpdateDepartmentAsWritten(ds, 1, DepartmentData("Payroll", "PAY", 2));
    assert FirstMatch(ds, (d: Department) => d.id == 1) == Some(0);
    assert r.0[0] == Department(1, "Payroll", "PAY", 2) && r.0[1] == ds[1];
    assert !DistinctDepartments(r.0[0], r.0[1]);
  }

  /** The departments of one company, in table order. */
  function DepartmentsOf(departments: seq<Department>, companyId: int): (r: seq<Department>)
    ensures forall d :: d in r ==> d in departments && d.companyId == companyId
    ensures forall d :: d in departments && d.companyId == companyId ==> d in r
  {
    Filter(departments, (d: Department) => d.companyId == companyId)
  }

  /** The database state of the company endpoints. */
  class CompanyStore {
    var companies: seq<Company>
    var departments: seq<Department>
    var nextCompanyId: int
    var nextDepartmentId: int

    ghost predicate Valid()
      reads this
    {
      CompanyTableValid(companies, nextCompanyId) && DepartmentTableValid(departments, nextDepartmentId)
    }

    constructor ()
      ensures Valid() && companies == [] && departments == []
    {
      companies := [];
      departments := [];
      nextCompanyId := 1;
      nextDepartmentId := 1;
    }

    /** `get_company`: the row with this id, or 404. */
    function GetCompany(companyId: int): (r: Response<Company>)
      reads this
      ensures r.Success? ==> r.status == 200 && r.value in companies && r.value.id == companyId
      ensures r.HttpError? <==> forall k :: 0 <= k < |companies| ==> companies[k].id != companyId
      ensures r.HttpError? ==> r == HttpError(404, CompanyNotFound)
    {
      match FirstMatch(companies, (c: Company) => c.id == companyId)
      case None => HttpError(404, CompanyNotFound)
      case Some(i) => Success(200, companies[i])
    }

    /** `get_department`: the row with this id, or 404. */
    function GetDepartment(departmentId: int): (r: Response<Department>)
      reads this
      ensures r.Success? ==> r.status == 200 && r.value in departments && r.value.id == departmentId
      ensures r.HttpError? <==> forall k :: 0 <= k < |departments| ==> departments[k].id != departmentId
      ensures r.HttpError? ==> r == HttpError(404, DepartmentNotFound)
    {
      match FirstMatch(departments, (d: Department) => d.id == departmentId)
      case None => HttpError(404, DepartmentNotFound)
      case Some(i) => Success(200, departments[i])
    }

    /** `get_departments`: 404 for an unknown company, else the page of its
        departments, in table order, that starts at `skip` and holds at most
        `limit` rows. */
    function GetDepartments(companyId: int, skip: nat, limit: nat): (r: Response<seq<Department>>)
      reads this
      ensures r.HttpError? <==> forall k :: 0 <= k < |companies| ==> companies[k].id != companyId
      ensures r.HttpError? ==> r == HttpError(404, CompanyNotFound)
      ensures r.Success? ==> r.status == 200 && r.value == Page(DepartmentsOf(departments, companyId), skip, limit)
      ensures r.Success? ==> |r.value| <= limit && forall d :: d in r.value ==> d in departments && d.companyId == companyId
    {
      match FirstMatch(companies, (c: Company) => c.id == companyId)
      case None => HttpError(404, CompanyNotFound)
      case Some(_) =>
        var own := DepartmentsOf(departments, companyId);
        var page := Page(own, skip, limit);
        assert forall d :: d in page ==> d in own by {
          forall d | d in page ensures d in own {
            var k :| 0 <= k < |page| && page[k] == d;
            assert own[skip + k] == d;
          }
        }
        Success(200, page)
    }

    /** `create_company`: 400 if the registration number is taken, else the new row is appended. */
    method CreateCompany(data: CompanyData) returns (r: Response<Company>)
      requires Valid()
      modifies this
      ensures Valid()
      ensures departments == old(departments) && nextDepartmentId == old(nextDepartmentId)
      ensures RegistrationInUse(old(companies), data.registrationNumber) ==>
        r == HttpError(400, DuplicateRegistrationOnCreate) && companies == old(companies) &&
        nextCompanyId == old(nextCompanyId)
      ensures !RegistrationInUse(old(companies), data.registrationNumber) ==>
        r == Success(201, Company(old(nextCompanyId), data)) && companies == old(companies) + [r.value] &&
        nextCompanyId == old(nextCompanyId) + 1
    {
      var existing := FirstMatch(companies, (c: Company) => c.data.registrationNumber == data.registrationNumber);
      if existing.Some? {
        assert companies[existing.value].data.registrationNumber == data.registrationNumber;
        return HttpError(400, DuplicateRegistrationOnCreate);
      }
      assert !RegistrationInUse(companies, data.registrationNumber);
      var company := Company(nextCompanyId, data);
      forall i | 0 <= i < |companies| ensures DistinctCompanies(companies[i], company) {
        assert companies[i].data.registrationNumber != data.registrationNumber;
      }
      companies := companies + [company];
      nextCompanyId := nextCompanyId + 1;
      r := Success(201, company);
    }

    /** `update_company`: 404 for an unknown id; a changed registration number
        already held by another company is a 400; otherwise every field is overwritten. */
    method UpdateCompany(companyId: int, data: CompanyData) returns (r: Response<Company>)
      requires Valid()
      modifies this
      ensures Valid()
      ensures departments == old(departments) && nextDepartmentId == old(nextDepartmentId)
      ensures nextCompanyId == old(nextCompanyId) && |companies| == |old(companies)|
      ensures r.HttpError? ==> companies == old(companies)
      ensures r == HttpError(404, CompanyNotFound) <==> forall k :: 0 <= k < |old(companies)| ==> old(companies)[k].id != companyId
      ensures r.Success? ==> exists i :: (0 <= i < |companies| && old(companies)[i].id == companyId &&
        r == Success(200, Company(companyId, data)) && companies == old(companies)[i := r.value])
      ensures r == HttpError(400, DuplicateRegistrationOnUpdate) ==>
        exists k :: 0 <= k < |companies| && companies[k].id != companyId && companies[k].data.registrationNumber == data.registrationNumber
      ensures r.HttpError? ==> r == HttpError(404, CompanyNotFound) || r == HttpError(400, DuplicateRegistrationOnUpdate)
      ensures r == HttpError(400, DuplicateRegistrationOnUpdate) <==>
        HasCompany(old(companies), companyId) && RegistrationHeldByOther(old(companies), data.registrationNumber, companyId)
      ensures r.Success? <==>
        HasCompany(old(companies), companyId) && !RegistrationHeldByOther(old(companies), data.registrationNumber, companyId)
    {
      var found := FirstMatch(companies, (c: Company) => c.id == companyId);
      if found.None? {
        return HttpError(404, CompanyNotFound);
      }
      var i := found.value;
      if data.registrationNumber != companies[i].data.registrationNumber {
        var existing := FirstMatch(companies, (c: Company) => c.data.registrationNumber == data.registrationNumber && c.id != companyId);
        if existing.Some? {
          assert companies[existing.value].id != companyId;
          return HttpError(400, DuplicateRegistrationOnUpdate);
        }
      } else {
        // An unchanged number is held by no other row of a valid table.
        forall k | 0 <= k < |companies| && k != i
          ensures companies[k].data.registrationNumber != data.registrationNumber
        {
          if k < i {
            assert DistinctCompanies(companies[k], companies[i]);
          } else {
            assert DistinctCompanies(companies[i], companies[k]);
          }
        }
      }
      assert companies[i].id == companyId;
      var updated := Company(companyId, data);
      companies := companies[i := updated];
      r := Success(200, updated);
    }

    /** `delete_company`: 404 for an unknown id; otherwise the row and, by the
        relationship's cascade, the company's departments are removed. */
    method DeleteCompany(companyId: int) returns (r: Response<()>)
      requires Valid()
      modifies this
      ensures Valid()
      ensures nextCompanyId == old(nextCompanyId) && nextDepartmentId == old(nextDepartmentId)
      ensures r == HttpError(404, CompanyNotFound) <==> forall k :: 0 <= k < |old(companies)| ==> old(companies)[k].id != companyId
      ensures r.HttpError? ==> companies == old(companies) && departments == old(departments)
      ensures r.HttpError? ==> r == HttpError(404, CompanyNotFound)
      ensures r.Success? <==> HasCompany(old(companies), companyId)
      ensures r.Success? ==> (r.status == 204 &&
        (exists i :: 0 <= i < |old(companies)| && old(companies)[i].id == companyId && companies == RemoveAt(old(companies), i)) &&
        departments == Filter(old(departments), (d: Department) => d.companyId != companyId))
    {
      var found := FirstMatch(companies, (c: Company) => c.id == companyId);
      if found.None? {
        return HttpError(404, CompanyNotFound);
      }
      var i := found.value;
      var kept := Filter(departments, (d: Department) => d.companyId != companyId);
      FilterPairwise(departments, (d: Department) => d.companyId != companyId, DistinctDepartments);
      companies := RemoveAt(companies, i);
      departments := kept;
      r := Success(204, ());
    }

    /** `create_department`: 404 for an unknown company, 400 when the code is
        already used in that company; the company id comes from the URL. */
    method CreateDepartment(companyId: int, name: string, code: string) returns (r: Response<Department>)
      requires Valid()
      modifies this
      ensures Valid()
      ensures companies == old(companies) && nextCompanyId == old(nextCompanyId)
      ensures r == HttpError(404, CompanyNotFound) <==> forall k :: 0 <= k < |companies| ==> companies[k].id != companyId
      ensures r == HttpError(400, DuplicateCodeOnCreate) <==> r != HttpError(404, CompanyNotFound) && CodeInUse(old(departments), companyId, code)
      ensures r.HttpError? ==> departments == old(departments) && nextDepartmentId == old(nextDepartmentId)
      ensures r.HttpError? ==> r == HttpError(404, CompanyNotFound) || r == HttpError(400, DuplicateCodeOnCreate)
      ensures r.Success? <==> HasCompany(companies, companyId) && !CodeInUse(old(departments), companyId, code)
      ensures r.Success? ==> (r == Success(201, Department(old(nextDepartmentId), name, code, companyId)) &&
        departments == old(departments) + [r.value] && nextDepartmentId == old(nextDepartmentId) + 1)
    {
      var company := FirstMatch(companies, (c: Company) => c.id == companyId);
      if company.None? {
        return HttpError(404, CompanyNotFound);
      }
      var existing := FirstMatch(departments, (d: Department) => d.companyId == companyId && d.code == code);
      if existing.Some? {
        assert departments[existing.value].companyId == companyId && departments[existing.value].code == code;
        return HttpError(400, DuplicateCodeOnCreate);
      }
      assert !CodeInUse(departments, companyId, code);
      var department := Department(nextDepartmentId, name, code, companyId);
      forall i | 0 <= i < |departments| ensures DistinctDepartments(departments[i], department) {
        assert !(departments[i].companyId == companyId && departments[i].code == code);
      }
      departments := departments + [department];
      nextDepartmentId := nextDepartmentId + 1;
      r := Success(201, department);
    }

    /** `update_department`, with the conflict looked up in the company the
        department ends up in whenever its code or its company changes. */
    method UpdateDepartment(departmentId: int, data: DepartmentData) returns (r: Response<Department>)
      requires Valid()
      modifies this
      ensures Valid()
      ensures companies == old(companies) && nextCompanyId == old(nextCompanyId) && nextDepartmentId == old(nextDepartmentId)
      ensures |departments| == |old(departments)|
      ensures r.HttpError? ==> departments == old(departments)
      ensures r == HttpError(404, DepartmentNotFound) <==> forall k :: 0 <= k < |old(departments)| ==> old(departments)[k].id != departmentId
      ensures r.HttpError? ==> r == HttpError(404, DepartmentNotFound) || r == HttpError(400, DuplicateCodeOnUpdate)
      ensures r == HttpError(400, DuplicateCodeOnUpdate) <==>
        HasDepartment(old(departments), departmentId) && CodeInUseByOther(old(departments), data.companyId, data.code, departmentId)
      ensures r.Success? <==>
        HasDepartment(old(departments), departmentId) && !CodeInUseByOther(old(departments), data.companyId, data.code, departmentId)
      ensures r.Success? ==> exists i :: (0 <= i < |departments| && old(departments)[i].id == departmentId &&
        r == Success(200, Overwritten(old(departments)[i], data)) && departments == old(departments)[i := r.value])
    {
      var found := FirstMatch(departments, (d: Department) => d.id == departmentId);
      if found.None? {
        return HttpError(404, DepartmentNotFound);
      }
      var i := found.value;
      if data.code != departments[i].code || data.companyId != departments[i].companyId {
        var existing := FirstMatch(departments,
          (d: Department) => d.companyId == data.companyId && d.code == data.code && d.id != departmentId);
        if existing.Some? {
          assert departments[existing.value].companyId == data.companyId;
          return HttpError(400, DuplicateCodeOnUpdate);
        }
      } else {
        // An unchanged code is used by no other row of the same company in a valid table.
        forall k | 0 <= k < |departments| && k != i
          ensures !(departments[k].companyId == data.companyId && departments[k].code == data.code)
        {
          if k < i {
            assert DistinctDepartments(departments[k], departments[i]);
          } else {
            assert DistinctDepartments(departments[i], departments[k]);
          }
        }
      }
      assert departments[i].id == departmentId;
      var updated := Overwritten(departments[i], data);
      departments := departments[i := updated];
      r := Success(200, updated);
    }

    /** `delete_department`: 404 for an unknown id, else exactly that row goes. */
    method DeleteDepartment(departmentId: int) returns (r: Response<()>)
      requires Valid()
      modifies this
      ensures Valid()
      ensures companies == old(companies) && nextCompanyId == old(nextCompanyId) && nextDepartmentId == old(nextDepartmentId)
      ensures r == HttpError(404, DepartmentNotFound) <==> forall k :: 0 <= k < |old(departments)| ==> old(departments)[k].id != departmentId
      ensures r.HttpError? ==> departments == old(departments)
      ensures r.HttpError? ==> r == HttpError(404, DepartmentNotFound)
      ensures r.Success? <==> HasDepartment(old(departments), departmentId)
      ensures r.Success? ==> (r.status == 204 &&
        exists i :: 0 <= i < |old(departments)| && old(departments)[i].id == departmentId && departments == RemoveAt(old(departments), i))
    {
      var found := FirstMatch(departments, (d: Department) => d.id == departmentId);
      if found.None? {
        return HttpError(404, DepartmentNotFound);
      }
      departments := RemoveAt(departments, found.value);
      r := Success(204, ());
    }
  }
}
