/** Request-level and object-level access rules: core/permissions.py and
    authentication/permissions.py. */
module Permissions {
  import opened Base
  import opened Tenancy

  /** A Python value as it reaches a permission check: a token claim, a URL
      keyword argument or a request-body field. */
  datatype PyValue = PyNone | PyInt(i: int) | PyStr(s: string)

  /** `str(v)`. */
  function Str(v: PyValue): string {
    match v
    case PyNone => "None"
    case PyInt(i) => IntToString(i)
    case PyStr(s) => s
  }

  /** Python truthiness: None, 0 and "" are false. */
  predicate Truthy(v: PyValue) {
    match v
    case PyNone => false
    case PyInt(i) => i != 0
    case PyStr(s) => s != ""
  }

  /** `a or b`. */
  function Or(a: PyValue, b: PyValue): (r: PyValue)
    ensures Truthy(a) ==> r == a
    ensures !Truthy(a) ==> r == b
  {
    if Truthy(a) then a else b
  }

  /** Two integer ids compare equal as strings exactly when they are equal. */
  lemma IntIdsCompareByValue(a: int, b: int)
    ensures Str(PyInt(a)) == Str(PyInt(b)) <==> a == b
  {
    if Str(PyInt(a)) == Str(PyInt(b)) {
      IntToStringInjective(a, b);
    }
  }

  // ---------------------------------------------------------------------
  // core/permissions.py

  datatype User = User(isAuthenticated: bool)

  /** `IsTenantUser.has_permission` (core): an authenticated user and a
      tenant on the request. (A tenant model instance is always truthy.) */
  predicate CoreHasPermission(user: Option<User>, requestTenant: Option<TenantId>) {
    if user.None? || !user.value.isAuthenticated then false
    else if requestTenant.None? then false
    else true
  }

  lemma CoreHasPermissionExactly(user: Option<User>, requestTenant: Option<TenantId>)
    ensures CoreHasPermission(user, requestTenant) <==>
      user.Some? && user.value.isAuthenticated && requestTenant.Some?
  {
  }

  /** `IsTenantUser.has_object_permission` (core): `objTenant` is None for an
      object without a `tenant` attribute. */
  predicate CoreHasObjectPermission(requestTenant: Option<TenantId>, objTenant: Option<TenantId>) {
    if objTenant.Some? then Some(objTenant.value) == requestTenant else true
  }

  lemma CoreObjectPermissionExactly(requestTenant: Option<TenantId>, objTenant: Option<TenantId>)
    ensures CoreHasObjectPermission(requestTenant, objTenant) <==>
      objTenant.None? || (requestTenant.Some? && objTenant.value == requestTenant.value)
  {
  }

  // ---------------------------------------------------------------------
  // authentication/permissions.py

  /** `IsTenantUser.has_permission` (authentication). */
  predicate AuthHasPermission(user: User, requestTenant: Option<TenantId>) {
    user.isAuthenticated && requestTenant.Some?
  }

  /** For a present user the two `IsTenantUser` classes agree: both need an
      authenticated user and a tenant on the request. */
  lemma TenantUserChecksAgree(user: User, requestTenant: Option<TenantId>)
    ensures AuthHasPermission(user, requestTenant) <==> CoreHasPermission(Some(user), requestTenant)
    ensures AuthHasPermission(user, requestTenant) <==> user.isAuthenticated && requestTenant.Some?
  {
  }

  /** The decoded access token; `tenantId` is `token.get("tenant_id")`, so a
      missing claim is PyNone. */
  datatype Token = Token(tenantId: PyValue)

  /** `IsTenantMember.has_permission`: `urlTenant` is
      `view.kwargs.get("tenant_id")`, `bodyTenant` is
      `request.data.get("tenant_id")`. */
  predicate MemberHasPermission(token: Option<Token>, urlTenant: PyValue, bodyTenant: PyValue) {
    if token.None? then false
    else
      var tokenTenant := token.value.tenantId;
      var claimed := Or(urlTenant, bodyTenant);
      if Truthy(claimed) then Str(tokenTenant) == Str(claimed)
      else tokenTenant != PyNone
  }

  lemma MemberPermissionCases(token: Option<Token>, urlTenant: PyValue, bodyTenant: PyValue)
    ensures token.None? ==> !MemberHasPermission(token, urlTenant, bodyTenant)
    ensures token.Some? && Truthy(urlTenant) ==>
      (MemberHasPermission(token, urlTenant, bodyTenant) <==> Str(token.value.tenantId) == Str(urlTenant))
    ensures token.Some? && !Truthy(urlTenant) && Truthy(bodyTenant) ==>
      (MemberHasPermission(token, urlTenant, bodyTenant) <==> Str(token.value.tenantId) == Str(bodyTenant))
    ensures token.Some? && !Truthy(urlTenant) && !Truthy(bodyTenant) ==>
      (MemberHasPermission(token, urlTenant, bodyTenant) <==> token.value.tenantId != PyNone)
  {
  }

  /** With integer ids on both sides the string comparison is an id
      comparison: a request naming another tenant's id is refused. */
  lemma MemberPermissionComparesIds(tokenTenant: int, urlTenant: int, bodyTenant: PyValue)
    requires urlTenant != 0
    ensures MemberHasPermission(Some(Token(PyInt(tokenTenant))), PyInt(urlTenant), bodyTenant)
      <==> tokenTenant == urlTenant
  {
    IntIdsCompareByValue(tokenTenant, urlTenant);
  }

  /** A tenant id sent as text ("7", as in a URL) is accepted for the same
      integer claim. */
  lemma MemberPermissionAcceptsTextId(n: nat)
    requires n != 0
    ensures MemberHasPermission(Some(Token(PyInt(n))), PyStr(NatToString(n)), PyNone)
  {
  }

  /** The object a view acts on: `tenantIdAttr` is `getattr(obj, "tenant_id",
      None)`; `tenantAttr` is None when the object has no `tenant` attribute,
      else `getattr(obj.tenant, "tenant_id", None)`. */
  datatype Obj = Obj(tenantIdAttr: PyValue, tenantAttr: Option<PyValue>)

  function ObjTenantId(obj: Obj): (r: PyValue)
    ensures obj.tenantIdAttr != PyNone ==> r == obj.tenantIdAttr
    ensures obj.tenantIdAttr == PyNone && obj.tenantAttr.Some? ==> r == obj.tenantAttr.value
    ensures obj.tenantIdAttr == PyNone && obj.tenantAttr.None? ==> r == PyNone
  {
    if obj.tenantIdAttr == PyNone && obj.tenantAttr.Some? then obj.tenantAttr.value else obj.tenantIdAttr
  }

  /** `IsTenantMember.has_object_permission`. */
  predicate MemberHasObjectPermission(token: Option<Token>, obj: Obj) {
    if token.None? then false
    else Str(token.value.tenantId) == Str(ObjTenantId(obj))
  }

  /** For a token and an object both carrying integer tenant ids, access is
      granted exactly when the ids are the same. */
  lemma MemberObjectPermissionComparesIds(tokenTenant: int, obj: Obj, objTenant: int)
    requires ObjTenantId(obj) == PyInt(objTenant)
    ensures MemberHasObjectPermission(Some(Token(PyInt(tokenTenant))), obj) <==> tokenTenant == objTenant
  {
    IntIdsCompareByValue(tokenTenant, objTenant);
  }

  /** Because `str(None) == "None"`, a token without a tenant claim passes
      the object check for any object that has no tenant id either. */
  lemma MissingClaimMatchesUntenantedObject()
    ensures MemberHasObjectPermission(Some(Token(PyNone)), Obj(PyNone, None))
    ensures !MemberHasObjectPermission(None, Obj(PyNone, None))
  {
  }
}
