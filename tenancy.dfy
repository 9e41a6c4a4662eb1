/** Tenant scoping of querysets (core/managers.py, core/mixins.py) and the
    stricter view mixin with tenant stamping (authentication/mixins.py).

    A queryset is a sequence of rows, each carrying its tenant's primary
    key. Every tenant foreign key in the repository is non-null, so a row
    always has a tenant; the request's tenant may be absent (None). */
module Tenancy {
  import opened Base

  type TenantId = nat

  datatype Row<T> = Row(tenant: TenantId, value: T)

  /** `queryset.filter(tenant=t)`: Django's equality lookup. With `t` None
      the lookup is `tenant IS NULL`, which no row satisfies. */
  function FilterTenant<T(!new)>(rows: seq<Row<T>>, t: Option<TenantId>): (r: seq<Row<T>>)
    ensures forall x :: x in r <==> x in rows && Some(x.tenant) == t
    ensures forall x :: multiset(r)[x] == if Some(x.tenant) == t then multiset(rows)[x] else 0
    ensures |r| <= |rows|
  {
    if rows == [] then []
    else
      var rest := FilterTenant(rows[1..], t);
      assert rows == [rows[0]] + rows[1..];
      if Some(rows[0].tenant) == t then [rows[0]] + rest else rest
  }

  /** `TenantQuerySet.for_tenant(tenant)`: fail-closed, no tenant means no rows. */
  function ForTenant<T(!new)>(rows: seq<Row<T>>, tenant: Option<TenantId>): (r: seq<Row<T>>)
    ensures tenant.None? ==> r == []
    ensures forall x :: x in r <==> x in rows && tenant == Some(x.tenant)
    ensures forall x :: x in r ==> x in rows
  {
    if tenant.None? then [] else FilterTenant(rows, tenant)
  }

  /** `TenantManager.for_tenant(tenant)`: the manager starts from the whole
      table (`get_queryset()`) and delegates to the queryset. */
  function ManagerForTenant<T(!new)>(table: seq<Row<T>>, tenant: Option<TenantId>): (r: seq<Row<T>>)
    ensures forall x :: x in r <==> x in table && tenant == Some(x.tenant)
  {
    ForTenant(table, tenant)
  }

  /** `core.mixins.TenantViewSetMixin.get_queryset`: filters only when the
      request carries a tenant and the model has a tenant field; otherwise
      the base queryset is returned as it is (fail-open). */
  function CoreScopedQuery<T(!new)>(base: seq<Row<T>>, modelHasTenant: bool, requestTenant: Option<TenantId>)
    : (r: seq<Row<T>>)
    ensures requestTenant.Some? && modelHasTenant ==>
      forall x :: x in r <==> x in base && x.tenant == requestTenant.value
    ensures requestTenant.None? || !modelHasTenant ==> r == base
    ensures forall x :: x in r ==> x in base
  {
    if requestTenant.Some? && modelHasTenant then FilterTenant(base, requestTenant) else base
  }

  /** `authentication.mixins.TenantViewSetMixin.get_queryset`: uses
      `for_tenant` when the queryset has it, else `filter(tenant=...)`.
      Either way no row escapes its tenant and no tenant means no rows. */
  function AuthScopedQuery<T(!new)>(base: seq<Row<T>>, hasForTenant: bool, requestTenant: Option<TenantId>)
    : (r: seq<Row<T>>)
    ensures requestTenant.None? ==> r == []
    ensures forall x :: x in r <==> x in base && requestTenant == Some(x.tenant)
  {
    if hasForTenant then ForTenant(base, requestTenant) else FilterTenant(base, requestTenant)
  }

  /** The two mixins disagree exactly when the request has no tenant: the
      core mixin then exposes every row of every tenant, the authentication
      mixin none. */
  lemma FailOpenVersusFailClosed<T(!new)>(base: seq<Row<T>>, hasForTenant: bool)
    requires base != []
    ensures CoreScopedQuery(base, true, None) == base
    ensures AuthScopedQuery(base, hasForTenant, None) == []
    ensures CoreScopedQuery(base, true, None) != AuthScopedQuery(base, hasForTenant, None)
  {
  }

  /** With a tenant on the request, the two mixins return the same rows. */
  lemma ScopesAgreeWithTenant<T(!new)>(base: seq<Row<T>>, hasForTenant: bool, t: TenantId)
    ensures CoreScopedQuery(base, true, Some(t)) == AuthScopedQuery(base, hasForTenant, Some(t))
  {
  }

  /** A table whose rows are saved through `perform_create` and
      `perform_update` of the authentication mixin. */
  class ScopedTable<T> {
    var rows: seq<Row<T>>

    constructor ()
      ensures rows == []
    {
      rows := [];
    }

    /** `serializer.save(tenant=request.tenant)` on create: the stored row
        carries the request's tenant whatever the payload said. With no
        tenant the non-null column rejects the insert and nothing is stored. */
    method PerformCreate(value: T, payloadTenant: Option<TenantId>, requestTenant: Option<TenantId>)
      returns (saved: bool)
      modifies this
      ensures saved <==> requestTenant.Some?
      ensures saved ==> rows == old(rows) + [Row(requestTenant.value, value)]
      ensures !saved ==> rows == old(rows)
    {
      if requestTenant.None? {
        return false;
      }
      rows := rows + [Row(requestTenant.value, value)];
      return true;
    }

    /** `serializer.save(tenant=request.tenant)` on update: the row is
        rewritten with the request's tenant, so a payload cannot move it
        to another tenant. */
    method PerformUpdate(index: nat, value: T, payloadTenant: Option<TenantId>, requestTenant: Option<TenantId>)
      returns (saved: bool)
      requires index < |rows|
      modifies this
      ensures saved <==> requestTenant.Some?
      ensures saved ==> rows == old(rows)[index := Row(requestTenant.value, value)]
      ensures !saved ==> rows == old(rows)
    {
      if requestTenant.None? {
        return false;
      }
      rows := rows[index := Row(requestTenant.value, value)];
      return true;
    }
  }
}
