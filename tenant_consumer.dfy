/**
 * The tenant service's onboarding step: on a `user-created` message the
 * tenant named in it gets the new user as its owner, and `tenant-created`
 * is announced with the tenant's id, name, owner and creation time.
 */
module TenantConsumer {
  import opened Wrappers

  /** A stored tenant. */
  datatype Tenant = Tenant(name: string, ownerId: Option<string>, slug: string, createdAt: int, isActive: bool)

  /** A `user-created` message. */
  datatype UserCreated = UserCreated(userId: string, tenantId: string)

  /** A `tenant-created` message: its key and its JSON value's fields. */
  datatype TenantCreated = TenantCreated(key: string, tenantId: string, tenantName: string, ownerId: Option<string>, createdAt: int)

  /** The outcome of the handler: it returns, or it throws with this message. */
  datatype Outcome = Handled | Threw(message: string)

  /** The announcement for a tenant, keyed by its id. */
  function Announcement(id: string, t: Tenant): (e: TenantCreated)
    ensures e.key == id && e.tenantId == id
    ensures e.tenantName == t.name && e.ownerId == t.ownerId && e.createdAt == t.createdAt
  {
    TenantCreated(id, id, t.name, t.ownerId, t.createdAt)
  }

  /** The tenants after the message: only the owner of the named tenant changes. */
  function Owned(tenants: map<string, Tenant>, m: UserCreated): (r: map<string, Tenant>)
    requires m.tenantId in tenants
    ensures r.Keys == tenants.Keys
    ensures r[m.tenantId] == tenants[m.tenantId].(ownerId := Some(m.userId))
    ensures forall id :: id in tenants && id != m.tenantId ==> r[id] == tenants[id]
  {
    tenants[m.tenantId := tenants[m.tenantId].(ownerId := Some(m.userId))]
  }

  /** The tenants collection and the messages sent on `tenant-created`. */
  class TenantStore {
    var tenants: map<string, Tenant>
    var sent: seq<TenantCreated>

    constructor (initial: map<string, Tenant>)
      ensures tenants == initial && sent == []
    {
      tenants := initial;
      sent := [];
    }

    /**
     * The `eachMessage` handler: load the tenant (a missing one makes the
     * owner assignment throw before anything is sent), set its owner, start
     * saving it and announce it. The save is not awaited, so the tenant with
     * its owner is announced whether or not the save succeeds; `saved` is the
     * save's eventual outcome.
     */
    method HandleUserCreated(m: UserCreated, saved: bool) returns (o: Outcome)
      modifies this
      ensures m.tenantId !in old(tenants) ==>
        o == Threw("Cannot set properties of null (setting 'ownerId')") && tenants == old(tenants) && sent == old(sent)
      ensures m.tenantId in old(tenants) ==>
        o == Handled &&
        tenants == (if saved then Owned(old(tenants), m) else old(tenants)) &&
        sent == old(sent) + [Announcement(m.tenantId, Owned(old(tenants), m)[m.tenantId])]
    {
      if m.tenantId !in tenants {
        return Threw("Cannot set properties of null (setting 'ownerId')");
      }
      var tenant := tenants[m.tenantId];
      tenant := tenant.(ownerId := Some(m.userId));
      if saved {
        tenants := tenants[m.tenantId := tenant];
      }
      sent := sent + [Announcement(m.tenantId, tenant)];
      o := Handled;
    }
  }

  /** The announcement carries the new owner and the tenant's own name and creation time. */
  lemma AnnouncesNewOwner(tenants: map<string, Tenant>, m: UserCreated)
    requires m.tenantId in tenants
    ensures var e := Announcement(m.tenantId, Owned(tenants, m)[m.tenantId]);
      e.key == m.tenantId && e.ownerId == Some(m.userId) &&
      e.tenantName == tenants[m.tenantId].name && e.createdAt == tenants[m.tenantId].createdAt
  {
  }

  /**
   * A redelivered message sets the same owner again: the tenants end as
   * after one delivery, and, with no de-duplication, the second
   * announcement repeats the first.
   */
  lemma RedeliveryKeepsTenants(tenants: map<string, Tenant>, m: UserCreated)
    requires m.tenantId in tenants
    ensures Owned(Owned(tenants, m), m) == Owned(tenants, m)
    ensures Announcement(m.tenantId, Owned(Owned(tenants, m), m)[m.tenantId]) ==
            Announcement(m.tenantId, Owned(tenants, m)[m.tenantId])
  {
  }
}
