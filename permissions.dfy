/**
 * The request-level permission classes, the attribute-path resolver and the
 * record-level check of the role-scoped permission.
 *
 * The capability methods (`is_viewer`, `can_edit_finances`, ...) are not
 * defined by the user model in view, so each user carries them as an
 * uninterpreted lookup `capability`.
 */
module Permissions {
  import opened Wrappers
  import opened Text
  import opened Roles

  /** `getattr(user, name, None)`: absent, present but not callable, or a method returning a bool. */
  datatype Attr = Missing | NotCallable | Method(result: bool)

  datatype User = User(id: int, role: string, department: string, capability: string -> Attr)

  /** `request.user`: the anonymous user is not authenticated and has no role. */
  datatype Principal = Anonymous | Authenticated(user: User)

  /** A request-level answer; `Raises` is an exception escaping the check (a server error). */
  datatype Verdict = Allow | Deny | Raises

  const CanEditFinances: string := "can_edit_finances"
  const CanApproveOrders: string := "can_approve_orders"
  const CanViewReports: string := "can_view_reports"
  const CanCreateTransactions: string := "can_create_transactions"
  const IsViewer: string := "is_viewer"

  /** Calling `u.<name>()` directly: a missing or non-callable attribute raises. */
  function CallCapability(u: User, name: string): (v: Verdict)
    ensures v == Allow <==> u.capability(name) == Method(true)
    ensures v == Deny <==> u.capability(name) == Method(false)
  {
    match u.capability(name)
    case Missing => Raises
    case NotCallable => Raises
    case Method(b) => if b then Allow else Deny
  }

  /** `IsAdmin.has_permission`. */
  function IsAdminPermission(p: Principal): (allowed: bool)
    ensures allowed <==> p.Authenticated? && p.user.role == AdminRole
  {
    p.Authenticated? && IsAdmin(p.user.role)
  }

  /** `IsManagerOrAdmin.has_permission`. */
  function IsManagerOrAdminPermission(p: Principal): (allowed: bool)
    ensures allowed <==> p.Authenticated? && HasRoleAtLeast(p.user.role, ManagerRole)
  {
    p.Authenticated? && (IsManager(p.user.role) || IsAdmin(p.user.role))
  }

  /**
   * `CanEditFinances`, `CanApproveOrders`, `CanViewReports` and
   * `CanCreateTransactions`: an authenticated user whose capability method
   * returns true.
   */
  function CapabilityPermission(p: Principal, name: string): (v: Verdict)
    ensures p.Anonymous? ==> v == Deny
    ensures v == Allow <==> p.Authenticated? && p.user.capability(name) == Method(true)
  {
    if p.Anonymous? then Deny else CallCapability(p.user, name)
  }

  predicate IsSafeMethod(verb: string)
  {
    verb == "GET" || verb == "HEAD" || verb == "OPTIONS"
  }

  /** `ReadOnlyOrViewer`: safe methods for any authenticated user, the others only for non-viewers. */
  function ReadOnlyOrViewer(p: Principal, verb: string): (v: Verdict)
    ensures IsSafeMethod(verb) ==> (v == Allow <==> p.Authenticated?) && v != Raises
    ensures !IsSafeMethod(verb) ==>
              (v == Allow <==> p.Authenticated? && p.user.capability(IsViewer) == Method(false))
    ensures p.Anonymous? ==> v == Deny
  {
    if IsSafeMethod(verb) then (if p.Authenticated? then Allow else Deny)
    else if p.Anonymous? then Deny
    else match p.user.capability(IsViewer)
      case Method(b) => if b then Deny else Allow
      case _ => Raises
  }

  /** The permission-class checks of the role test suite: an admin may GET, a viewer may not POST. */
  lemma PermissionClassExamples(admin: User, viewer: User)
    requires admin.role == AdminRole
    requires viewer.role == "viewer" && viewer.capability(IsViewer) == Method(true)
    ensures IsAdminPermission(Authenticated(admin))
    ensures !IsAdminPermission(Authenticated(viewer))
    ensures ReadOnlyOrViewer(Authenticated(admin), "GET") == Allow
    ensures ReadOnlyOrViewer(Authenticated(viewer), "POST") == Deny
  {
  }

  // ---------------------------------------------------------------- paths

  /** An attribute value: `None`, a string, or a model instance with its fields. */
  datatype Value = Null | Text(s: string) | Instance(model: string, pk: int, fields: map<string, Value>)

  /** Python truthiness of a value: `None` and `''` are false, instances are true. */
  predicate Truthy(v: Value)
  {
    match v
    case Null => false
    case Text(s) => s != ""
    case Instance(_, _, _) => true
  }

  /** `getattr(v, name, None)`. */
  function GetAttr(v: Value, name: string): Value
  {
    if v.Instance? && name in v.fields then v.fields[name] else Null
  }

  predicate DunderAt(s: string, k: int)
  {
    0 <= k < |s| - 1 && s[k] == '_' && s[k + 1] == '_'
  }

  /** The first "__" at or after `from`, or -1. */
  function FindDunder(s: string, from: nat): (i: int)
    requires from <= |s|
    ensures i == -1 || (from <= i && DunderAt(s, i))
    ensures forall k :: from <= k && (i == -1 || k < i) ==> !DunderAt(s, k)
    decreases |s| - from
  {
    if from + 1 >= |s| then -1
    else if s[from] == '_' && s[from + 1] == '_' then from
    else FindDunder(s, from + 1)
  }

  /** `s.split("__")`: cut at each leftmost non-overlapping "__". */
  function SplitDunder(s: string): (parts: seq<string>)
    ensures |parts| >= 1
    decreases |s|
  {
    var i := FindDunder(s, 0);
    if i < 0 then [s] else [s[..i]] + SplitDunder(s[i + 2..])
  }

  lemma {:induction false} JoinCons(a: string, rest: seq<string>, sep: string)
    requires rest != []
    ensures Join([a] + rest, sep) == a + sep + Join(rest, sep)
    decreases |rest|
  {
    if |rest| == 1 {
      assert [a] + rest == [a, rest[0]];
      assert ([a] + rest)[..1] == [a];
    } else {
      var init := rest[..|rest| - 1];
      assert ([a] + rest)[..|rest|] == [a] + init;
      JoinCons(a, init, sep);
    }
  }

  /** Joining the parts with "__" gives the path back. */
  lemma {:induction false} SplitDunderJoin(s: string)
    ensures Join(SplitDunder(s), "__") == s
    decreases |s|
  {
    var i := FindDunder(s, 0);
    if i >= 0 {
      var rest := s[i + 2..];
      SplitDunderJoin(rest);
      JoinCons(s[..i], SplitDunder(rest), "__");
      assert s == s[..i] + "__" + rest;
    }
  }

  /** No part of a split path contains "__". */
  lemma {:induction false} SplitDunderPartsClean(s: string)
    ensures forall p, k :: p in SplitDunder(s) ==> !DunderAt(p, k)
    decreases |s|
  {
    var i := FindDunder(s, 0);
    if i >= 0 {
      SplitDunderPartsClean(s[i + 2..]);
      forall k ensures !DunderAt(s[..i], k) {
        if DunderAt(s[..i], k) {
          assert DunderAt(s, k);
        }
      }
    } else {
      forall k ensures !DunderAt(s, k) {
        assert 0 <= k ==> !DunderAt(s, k);
      }
    }
  }

  /** Following the parts one attribute at a time; a `None` ends the walk. */
  function ResolvePath(v: Value, parts: seq<string>): Value
    decreases |parts|
  {
    if parts == [] then v
    else
      var next := GetAttr(v, parts[0]);
      if next == Null then Null else ResolvePath(next, parts[1..])
  }

  lemma {:induction false} ResolveFromNull(parts: seq<string>)
    ensures ResolvePath(Null, parts) == Null
  {
  }

  /** The walk over `a + b` is the walk over `b` from where the walk over `a` ended. */
  lemma {:induction false} ResolvePathAppend(v: Value, a: seq<string>, b: seq<string>)
    requires ResolvePath(v, a) != Null || b == []
    ensures ResolvePath(v, a + b) == ResolvePath(ResolvePath(v, a), b)
    decreases |a|
  {
    if a == [] {
      assert a + b == b;
    } else {
      var next := GetAttr(v, a[0]);
      assert (a + b)[0] == a[0] && (a + b)[1..] == a[1..] + b;
      if next != Null {
        ResolvePathAppend(next, a[1..], b);
      }
    }
  }

  predicate Given(p: Option<string>)
  {
    p.Some? && p.value != ""
  }

  /** `_resolve_attr`: `None` for a falsy object or path, otherwise the walk along the "__"-separated parts. */
  function ResolveAttr(obj: Value, dotted: Option<string>): (r: Value)
    ensures !Truthy(obj) || !Given(dotted) ==> r == Null
    ensures Truthy(obj) && Given(dotted) ==> r == ResolvePath(obj, SplitDunder(dotted.value))
  {
    if !Truthy(obj) || !Given(dotted) then Null else ResolvePath(obj, SplitDunder(dotted.value))
  }

  /** The loop of `_resolve_attr`, stopping at the first `None`. */
  method ResolveAttrLoop(obj: Value, dotted: Option<string>) returns (current: Value)
    ensures current == ResolveAttr(obj, dotted)
  {
    if !Truthy(obj) || !Given(dotted) {
      return Null;
    }
    current := obj;
    var parts := SplitDunder(dotted.value);
    var i := 0;
    while i < |parts|
      invariant 0 <= i <= |parts|
      invariant current != Null
      invariant ResolvePath(current, parts[i..]) == ResolvePath(obj, parts)
    {
      assert parts[i..][1..] == parts[i + 1..];
      current := GetAttr(current, parts[i]);
      if current == Null {
        break;
      }
      i := i + 1;
    }
  }

  // ------------------------------------------------------- object check

  /** The viewset attributes the check reads; by default the owner is `created_by` and there is no department field. */
  datatype ViewScope = ViewScope(ownerField: Option<string>, departmentField: Option<string>)

  const DefaultScope: ViewScope := ViewScope(Some("created_by"), None)

  const UserModel: string := "User"

  /** Model-instance equality with the requesting user: same model, same primary key. */
  predicate IsUser(v: Value, u: User)
  {
    v.Instance? && v.model == UserModel && v.pk == u.id
  }

  /** The record's department: its own department field if truthy, else the owner's department. */
  function RecordDepartment(scope: ViewScope, obj: Value): Value
  {
    var owner := ResolveAttr(obj, scope.ownerField);
    var direct := ResolveAttr(obj, scope.departmentField);
    if Truthy(direct) then direct else GetAttr(owner, "department")
  }

  /** `user.department != department` for a department value. */
  predicate SameDepartment(u: User, d: Value)
  {
    d.Text? && d.s == u.department
  }

  const AuthMessage: string := "Authentication credentials were not provided."
  const DepartmentMessage: string := "Managers may only access records within their department."
  const OwnerMessage: string := "You may only access records you created."
  const DefaultMessage: string := "You do not have permission to perform this action."

  datatype Decision = Granted(reason: string) | Denied(reason: string, message: string)

  /** `RoleScopedPermission.has_object_permission` as a decision. */
  function ObjectDecision(p: Principal, scope: ViewScope, obj: Value): (d: Decision)
    ensures p.Anonymous? ==> d == Denied("not_authenticated_object", AuthMessage)
    ensures p.Authenticated? && IsAdmin(p.user.role) ==> d.Granted?
    ensures p.Authenticated? && IsManager(p.user.role) && !IsAdmin(p.user.role) ==>
              (d.Denied? <==> p.user.department != "" && Truthy(RecordDepartment(scope, obj))
                              && !SameDepartment(p.user, RecordDepartment(scope, obj)))
    ensures p.Authenticated? && !IsManager(p.user.role) ==>
              (d.Granted? <==> IsUser(ResolveAttr(obj, scope.ownerField), p.user))
    ensures d.Denied? ==> d.message in {AuthMessage, DepartmentMessage, OwnerMessage}
  {
    if p.Anonymous? then Denied("not_authenticated_object", AuthMessage)
    else
      var u := p.user;
      if IsAdmin(u.role) then Granted("admin access")
      else
        var owner := ResolveAttr(obj, scope.ownerField);
        var department := RecordDepartment(scope, obj);
        if IsManager(u.role) then
          if u.department != "" && Truthy(department) && !SameDepartment(u, department) then
            Denied("manager_out_of_department", DepartmentMessage)
          else Granted("manager department access")
        else if Truthy(owner) && IsUser(owner, u) then Granted("owner access")
        else Denied("owner_mismatch", OwnerMessage)
  }

  /** A manager without a department, or a record without one, is never turned away. */
  lemma ManagerWithoutDepartmentAllowed(u: User, scope: ViewScope, obj: Value)
    requires u.role == ManagerRole
    requires u.department == "" || !Truthy(RecordDepartment(scope, obj))
    ensures ObjectDecision(Authenticated(u), scope, obj).Granted?
  {
  }

  /**
   * The permission object; a denial overwrites the `message` shown to the
   * client and the object keeps it afterwards.
   */
  class RoleScopedPermission {
    var message: string

    constructor ()
      ensures message == DefaultMessage
    {
      message := DefaultMessage;
    }

    /** `has_permission`: every authenticated user passes. */
    method HasPermission(p: Principal) returns (allowed: bool)
      modifies this
      ensures allowed <==> p.Authenticated?
      ensures message == if allowed then old(message) else AuthMessage
    {
      if p.Anonymous? {
        message := AuthMessage;
        return false;
      }
      return true;
    }

    /** `has_object_permission`, walking the owner and department paths with the resolver loop. */
    method HasObjectPermission(p: Principal, scope: ViewScope, obj: Value) returns (allowed: bool)
      modifies this
      ensures allowed <==> ObjectDecision(p, scope, obj).Granted?
      ensures message == (if allowed then old(message) else ObjectDecision(p, scope, obj).message)
    {
      if p.Anonymous? {
        message := AuthMessage;
        return false;
      }
      var u := p.user;
      if IsAdmin(u.role) {
        return true;
      }
      var owner := ResolveAttrLoop(obj, scope.ownerField);
      var ownerDepartment := GetAttr(owner, "department");
      var direct := ResolveAttrLoop(obj, scope.departmentField);
      var department := if Truthy(direct) then direct else ownerDepartment;
      if IsManager(u.role) {
        if u.department != "" && Truthy(department) && !SameDepartment(u, department) {
          message := DepartmentMessage;
          return false;
        }
        return true;
      }
      if Truthy(owner) && IsUser(owner, u) {
        return true;
      }
      message := OwnerMessage;
      return false;
    }
  }
}
