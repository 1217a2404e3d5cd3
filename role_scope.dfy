/**
 * Role-scoped record visibility (`scope_queryset_for_user` and the queryset
 * mixin built on it) and the three dispatch gates for class-based views.
 *
 * A queryset is a sequence of model instances; an ORM lookup such as
 * `created_by__department` is the same attribute walk as the resolver's.
 */
module RoleScope {
  import opened Wrappers
  import opened Seqs
  import opened Roles
  import opened Permissions

  /** `Q(**{owner_field: user})`: the instance at the owner path is the user. */
  predicate OwnedBy(r: Value, ownerField: string, u: User)
  {
    IsUser(ResolvePath(r, SplitDunder(ownerField)), u)
  }

  /** The owner test as the filter applies it. */
  function OwnerTest(ownerField: string, u: User): Value -> bool
  {
    (x: Value) => OwnedBy(x, ownerField, u)
  }

  /** `Q(**{dept_lookup: user.department})`. */
  predicate InDepartment(r: Value, deptLookup: string, u: User)
  {
    ResolvePath(r, SplitDunder(deptLookup)) == Text(u.department)
  }

  /** The department lookup: the given field, else `<owner_field>__department`, else none. */
  function DepartmentLookup(ownerField: Option<string>, departmentField: Option<string>): (d: Option<string>)
    ensures Given(departmentField) ==> d == departmentField
    ensures !Given(departmentField) && Given(ownerField) ==> d == Some(ownerField.value + "__department")
    ensures !Given(departmentField) && !Given(ownerField) ==> !Given(d)
  {
    if !Given(departmentField) && Given(ownerField) then Some(ownerField.value + "__department")
    else departmentField
  }

  /** What a manager may see: own records or records of the department, whichever lookups are available. */
  predicate ManagerSees(r: Value, u: User, ownerField: Option<string>, deptLookup: Option<string>)
  {
    || (Given(ownerField) && OwnedBy(r, ownerField.value, u))
    || (Given(deptLookup) && u.department != "" && InDepartment(r, deptLookup.value, u))
  }

  /** The manager's test as the filter applies it. */
  function ManagerTest(u: User, ownerField: Option<string>, deptLookup: Option<string>): Value -> bool
  {
    (x: Value) => ManagerSees(x, u, ownerField, deptLookup)
  }

  /** `scope_queryset_for_user`. */
  function ScopeQueryset(p: Principal, records: seq<Value>, ownerField: Option<string>, departmentField: Option<string>)
    : (r: seq<Value>)
    ensures forall x :: x in r ==> x in records
    ensures p.Anonymous? ==> r == []
    ensures p.Authenticated? && IsAdmin(p.user.role) ==> r == records
    ensures p.Authenticated? && IsManager(p.user.role) && !IsAdmin(p.user.role) ==>
              forall x :: x in r <==> (x in records
                                     && ManagerSees(x, p.user, ownerField, DepartmentLookup(ownerField, departmentField)))
    ensures p.Authenticated? && !IsManager(p.user.role) ==>
              forall x :: x in r <==> x in records && Given(ownerField) && OwnedBy(x, ownerField.value, p.user)
  {
    if p.Anonymous? then []
    else
      var u := p.user;
      if IsAdmin(u.role) then records
      else
        var deptLookup := DepartmentLookup(ownerField, departmentField);
        if IsManager(u.role) then
          var byOwner := Given(ownerField);
          var byDept := Given(deptLookup) && u.department != "";
          if byOwner || byDept then Filter(records, ManagerTest(u, ownerField, deptLookup))
          else []
        else if Given(ownerField) then Filter(records, OwnerTest(ownerField.value, u))
        else []
  }

  /** A manager with neither an owner lookup nor a department of their own sees nothing. */
  lemma ManagerWithoutLookupsSeesNothing(u: User, records: seq<Value>, departmentField: Option<string>)
    requires u.role == ManagerRole && u.department == ""
    ensures ScopeQueryset(Authenticated(u), records, None, departmentField) == []
  {
  }

  // ---------------------------------------------------- the seeded matrix

  function Owner(id: int, department: string): Value
  {
    Instance(UserModel, id, map["department" := Text(department)])
  }

  function OwnedRecord(ownerField: string, pk: int, owner: Value): Value
  {
    Instance("Record", pk, map[ownerField := owner])
  }

  /** The first "__" of a string is found by `FindDunder`. */
  lemma FindFirstDunder(s: string, i: int)
    requires DunderAt(s, i)
    requires forall k :: 0 <= k < i ==> !DunderAt(s, k)
    ensures FindDunder(s, 0) == i
  {
  }

  lemma NoDunderBeforeSeparator(a: string, b: string)
    requires a != [] && a[|a| - 1] != '_'
    requires forall k :: !DunderAt(a, k)
    ensures forall k :: 0 <= k < |a| ==> !DunderAt(a + "__" + b, k)
  {
    var s := a + "__" + b;
    forall k | 0 <= k < |a| ensures !DunderAt(s, k) {
      if k < |a| - 1 {
        assert s[k] == a[k] && s[k + 1] == a[k + 1];
        assert !DunderAt(a, k);
      } else {
        assert s[k] == a[|a| - 1];
      }
    }
  }

  /** "a__b" splits into its two halves when neither half holds "__" and `a` does not end in '_'. */
  lemma SplitTwo(a: string, b: string)
    requires a != [] && a[|a| - 1] != '_'
    requires forall k :: !DunderAt(a, k)
    requires forall k :: !DunderAt(b, k)
    ensures SplitDunder(a + "__" + b) == [a, b]
  {
    var s := a + "__" + b;
    assert DunderAt(s, |a|) by {
      assert s[|a|] == '_' && s[|a| + 1] == '_';
    }
    NoDunderBeforeSeparator(a, b);
    FindFirstDunder(s, |a|);
    assert s[..|a|] == a;
    assert s[|a| + 2..] == b;
    SplitOne(b);
  }

  lemma SplitOne(s: string)
    requires forall k :: !DunderAt(s, k)
    ensures SplitDunder(s) == [s]
  {
  }

  lemma DepartmentHasNoDunder()
    ensures forall k :: !DunderAt("department", k)
  {
  }

  /** The department lookup derived from a plain owner field splits into two steps. */
  lemma DepartmentPathSplit(o: string)
    requires o != [] && o[|o| - 1] != '_' && forall k :: !DunderAt(o, k)
    ensures SplitDunder(o + "__department") == [o, "department"]
  {
    DepartmentHasNoDunder();
    SplitTwo(o, "department");
    DepartmentSuffix();
    AppendAssoc(o, "__", "department");
  }

  lemma DepartmentSuffix()
    ensures "__department" == "__" + "department"
  {
  }

  lemma AppendAssoc(a: string, b: string, c: string)
    ensures a + (b + c) == a + b + c
  {
    assert |a + (b + c)| == |a + b + c|;
    forall i | 0 <= i < |a + b + c| ensures (a + (b + c))[i] == (a + b + c)[i] {
      if i < |a| {
      } else if i < |a| + |b| {
      } else {
      }
    }
  }

  /** Resolving the owner path and the department path on a seeded record. */
  lemma SeededLookups(o: string, pk: int, id: int, dept: string)
    requires o != [] && o[|o| - 1] != '_' && forall k :: !DunderAt(o, k)
    ensures ResolvePath(OwnedRecord(o, pk, Owner(id, dept)), SplitDunder(o)) == Owner(id, dept)
    ensures ResolvePath(OwnedRecord(o, pk, Owner(id, dept)), SplitDunder(o + "__department")) == Text(dept)
  {
    SplitOne(o);
    DepartmentPathSplit(o);
    ResolveTwoSteps(o, pk, id, dept);
  }

  lemma ResolveTwoSteps(o: string, pk: int, id: int, dept: string)
    ensures ResolvePath(OwnedRecord(o, pk, Owner(id, dept)), [o]) == Owner(id, dept)
    ensures ResolvePath(OwnedRecord(o, pk, Owner(id, dept)), [o, "department"]) == Text(dept)
  {
    var r := OwnedRecord(o, pk, Owner(id, dept));
    assert GetAttr(r, o) == Owner(id, dept);
    assert [o][1..] == [];
    assert [o, "department"][1..] == ["department"];
    assert GetAttr(Owner(id, dept), "department") == Text(dept);
    assert ["department"][1..] == [];
  }

  /** The records the API test suite seeds: one created by each of its five users. */
  function SeededRecords(o: string): seq<Value>
  {
    [OwnedRecord(o, 10, Owner(1, "HQ")), OwnedRecord(o, 11, Owner(2, "Sales")),
     OwnedRecord(o, 12, Owner(3, "Sales")), OwnedRecord(o, 13, Owner(4, "Finance")),
     OwnedRecord(o, 14, Owner(5, "Sales"))]
  }

  /** On a seeded record, the owner test of a user is "created it". */
  lemma SeededOwned(o: string, pk: int, id: int, dept: string, u: User)
    requires o != [] && o[|o| - 1] != '_' && forall k :: !DunderAt(o, k)
    ensures OwnedBy(OwnedRecord(o, pk, Owner(id, dept)), o, u) <==> id == u.id
  {
    SeededLookups(o, pk, id, dept);
  }

  /** A user below manager with an owner field sees the records that pass the owner test, in order. */
  lemma StaffScope(u: User, recs: seq<Value>, o: string)
    requires !IsManager(u.role) && o != ""
    ensures ScopeQueryset(Authenticated(u), recs, Some(o), None) == Filter(recs, OwnerTest(o, u))
  {
    assert !IsAdmin(u.role);
  }

  /** Filtering records none of which passes keeps nothing. */
  lemma {:induction false} FilterNone(s: seq<Value>, p: Value -> bool)
    requires forall i :: 0 <= i < |s| ==> !p(s[i])
    ensures Filter(s, p) == []
  {
    if s != [] {
      FilterNone(s[..|s| - 1], p);
    }
  }

  /** Filtering records of which only the `k`-th passes keeps that one. */
  lemma {:induction false} FilterOnlyAt(s: seq<Value>, p: Value -> bool, k: nat)
    requires k < |s| && forall i :: 0 <= i < |s| ==> (p(s[i]) <==> i == k)
    ensures Filter(s, p) == [s[k]]
  {
    var init := s[..|s| - 1];
    if k == |s| - 1 {
      FilterNone(init, p);
    } else {
      FilterOnlyAt(init, p, k);
    }
  }

  /** Each of the seeded staff and viewer users sees exactly the one record they created. */
  lemma SeededOwnRecordOnly(o: string, u: User, k: nat)
    requires o != [] && o[|o| - 1] != '_' && forall k :: !DunderAt(o, k)
    requires !IsManager(u.role) && k < 5 && u.id == k + 1
    ensures ScopeQueryset(Authenticated(u), SeededRecords(o), Some(o), None) == [SeededRecords(o)[k]]
  {
    var recs := SeededRecords(o);
    var p := OwnerTest(o, u);
    StaffScope(u, recs, o);
    SeededOwned(o, 10, 1, "HQ", u);
    SeededOwned(o, 11, 2, "Sales", u);
    SeededOwned(o, 12, 3, "Sales", u);
    SeededOwned(o, 13, 4, "Finance", u);
    SeededOwned(o, 14, 5, "Sales", u);
    forall i | 0 <= i < |recs| ensures p(recs[i]) <==> i == k {
      if i == 0 {} else if i == 1 {} else if i == 2 {} else if i == 3 {} else {}
    }
    FilterOnlyAt(recs, p, k);
  }

  /** On a seeded record, a manager's test reduces to "created it, or same department". */
  lemma SeededManagerSees(o: string, pk: int, id: int, dept: string, u: User)
    requires o != [] && o[|o| - 1] != '_' && forall k :: !DunderAt(o, k)
    requires u.department != ""
    ensures ManagerSees(OwnedRecord(o, pk, Owner(id, dept)), u, Some(o), Some(o + "__department"))
            <==> (id == u.id || dept == u.department)
  {
    SeededLookups(o, pk, id, dept);
  }

  /** A manager (not an admin) with an owner field sees the records that pass the manager's test, in order. */
  lemma ManagerScope(u: User, recs: seq<Value>, o: string)
    requires u.role == ManagerRole && o != ""
    ensures ScopeQueryset(Authenticated(u), recs, Some(o), None) == Filter(recs, ManagerTest(u, Some(o), Some(o + "__department")))
  {
    assert IsManager(u.role) && !IsAdmin(u.role);
  }

  /** The seeded Sales manager sees the three Sales records: their own and two others. */
  lemma SeededManagerSeesDepartment(o: string, u: User)
    requires o != [] && o[|o| - 1] != '_' && forall k :: !DunderAt(o, k)
    requires u.role == ManagerRole && u.id == 2 && u.department == "Sales"
    ensures var recs := SeededRecords(o);
            ScopeQueryset(Authenticated(u), recs, Some(o), None) == [recs[1], recs[2], recs[4]]
  {
    var recs := SeededRecords(o);
    ManagerScope(u, recs, o);
    SeededManagerSees(o, 10, 1, "HQ", u);
    SeededManagerSees(o, 11, 2, "Sales", u);
    SeededManagerSees(o, 12, 3, "Sales", u);
    SeededManagerSees(o, 13, 4, "Finance", u);
    SeededManagerSees(o, 14, 5, "Sales", u);
    FilterKeepsOneTwoFour(recs, ManagerTest(u, Some(o), Some(o + "__department")));
  }

  lemma FilterKeepsOneTwoFour(recs: seq<Value>, p: Value -> bool)
    requires |recs| == 5
    requires !p(recs[0]) && p(recs[1]) && p(recs[2]) && !p(recs[3]) && p(recs[4])
    ensures Filter(recs, p) == [recs[1], recs[2], recs[4]]
  {
    FilterNone(recs[..1], p);
    assert recs[..2][..1] == recs[..1];
    assert Filter(recs[..2], p) == [recs[1]];
    assert recs[..3][..2] == recs[..2];
    assert Filter(recs[..3], p) == [recs[1], recs[2]];
    assert recs[..4][..3] == recs[..3];
    assert Filter(recs[..4], p) == [recs[1], recs[2]];
    assert recs[..4] == recs[..|recs| - 1];
  }

  /** The seeded admin sees all five records. */
  lemma SeededAdminSeesAll(o: string, u: User)
    requires u.role == AdminRole
    ensures ScopeQueryset(Authenticated(u), SeededRecords(o), Some(o), None) == SeededRecords(o)
  {
  }

  // -------------------------------------------------------- the mixins

  /** The outcome of a dispatch gate. */
  datatype Gate = Proceed | Forbidden(message: string)

  /** `CapabilityRequiredMixin.dispatch`: a missing, non-callable or false capability is forbidden. */
  function CapabilityGate(p: Principal, required: Option<string>): (g: Gate)
    ensures p.Anonymous? ==> g == Forbidden("Authentication required")
    ensures p.Authenticated? && !Given(required) ==> g == Proceed
    ensures p.Authenticated? && Given(required) ==>
              (g == Proceed <==> p.user.capability(required.value) == Method(true))
  {
    if p.Anonymous? then Forbidden("Authentication required")
    else if Given(required) then
      var allowed := match p.user.capability(required.value)
        case Method(b) => b
        case _ => false;
      if allowed then Proceed else Forbidden("Insufficient role capability")
    else Proceed
  }

  /** Where the permission class does not raise, it agrees with the dispatch gate. */
  lemma CapabilityGateAgreesWithPermission(p: Principal, name: string)
    requires name != ""
    requires CapabilityPermission(p, name) != Raises
    ensures CapabilityGate(p, Some(name)) == Proceed <==> CapabilityPermission(p, name) == Allow
  {
  }

  /** `ManagerOrAdminRequiredMixin.dispatch`. */
  function ManagerOrAdminGate(p: Principal): (g: Gate)
    ensures g == Proceed <==> IsManagerOrAdminPermission(p)
  {
    if p.Authenticated? && (IsManager(p.user.role) || IsAdmin(p.user.role)) then Proceed
    else Forbidden("Manager or admin required")
  }

  /** `AdminRequiredMixin.dispatch`. */
  function AdminGate(p: Principal): (g: Gate)
    ensures g == Proceed <==> IsAdminPermission(p)
  {
    if p.Authenticated? && IsAdmin(p.user.role) then Proceed else Forbidden("Admin required")
  }

  /** The owner and department lookups a viewset declares; unset attributes take the class defaults. */
  datatype ScopedView = ScopedView(roleOwnerField: Option<string>, roleDepartmentField: Option<string>)

  const DefaultView: ScopedView := ScopedView(Some("created_by"), None)

  function OwnerLookup(v: ScopedView): (o: Option<string>)
    ensures Given(o) <==> Given(v.roleOwnerField)
    ensures Given(o) ==> o == v.roleOwnerField
  {
    if Given(v.roleOwnerField) then v.roleOwnerField else None
  }

  datatype QueryError = NotAuthenticated

  /** `RoleScopedQuerysetMixin.get_queryset`: anonymous requests raise, the rest are scoped. */
  function GetQueryset(p: Principal, v: ScopedView, base: seq<Value>): (r: Result<seq<Value>, QueryError>)
    ensures r.Err? <==> p.Anonymous?
    ensures r.Ok? ==> r.value == ScopeQueryset(p, base, OwnerLookup(v), DepartmentLookup(OwnerLookup(v), v.roleDepartmentField))
    ensures r.Ok? ==> forall x :: x in r.value ==> x in base
  {
    if p.Anonymous? then Err(NotAuthenticated)
    else
      var owner := OwnerLookup(v);
      Ok(ScopeQueryset(p, base, owner, DepartmentLookup(owner, v.roleDepartmentField)))
  }

  /**
   * The mixin passes its computed department lookup back in as the
   * department field; computing the lookup again gives it unchanged.
   */
  lemma DepartmentLookupIdempotent(ownerField: Option<string>, departmentField: Option<string>)
    ensures DepartmentLookup(ownerField, DepartmentLookup(ownerField, departmentField))
            == DepartmentLookup(ownerField, departmentField)
  {
  }
}
