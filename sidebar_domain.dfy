/**
 * The domain gate of the admin sidebar: which tenant types may see the
 * navigation nodes of a business domain.
 */
module SidebarDomain {
  import opened Base

  /** Tenant types admitted by each domain; "ALL" admits every tenant type. */
  const DomainTenantMap: map<string, seq<string>> := map[
    "COMMON" := ["ALL"],
    "EDUCATION" := ["SCHOOL", "COACHING"],
    "HEALTHCARE" := ["CLINIC", "SALON", "GYM"],
    "COMMERCE" := ["RETAIL", "PHARMACY"],
    "HOSPITALITY" := ["RESTAURANT"]
  ]

  /**
   * `isDomainAllowed`. The tenant type is `None` when the request context
   * carries none (the JavaScript `null`); it then matches no listed type.
   */
  function IsDomainAllowed(domain: Option<string>, tenantType: Option<string>): (r: bool)
    // a missing or empty domain is never a restriction
    ensures !Filled(domain) ==> r
    // an unknown domain admits nobody
    ensures Filled(domain) && domain.value !in DomainTenantMap ==> !r
    // COMMON admits every tenant type, including none at all
    ensures domain == Some("COMMON") ==> r
    // any other known domain admits exactly its listed types, compared exactly
    ensures Filled(domain) && domain.value in DomainTenantMap && domain.value != "COMMON" ==>
              (r <==> tenantType.Some? && tenantType.value in DomainTenantMap[domain.value])
  {
    if !Filled(domain) then true
    else if domain.value !in DomainTenantMap then false
    else
      var allowed := DomainTenantMap[domain.value];
      "ALL" in allowed || (tenantType.Some? && tenantType.value in allowed)
  }

  /** The tenant-type lists of the domains other than COMMON do not overlap. */
  lemma AtMostOneSpecificDomain(d1: string, d2: string, t: Option<string>)
    requires d1 in DomainTenantMap && d2 in DomainTenantMap
    requires d1 != d2 && d1 != "COMMON" && d2 != "COMMON"
    ensures !(IsDomainAllowed(Some(d1), t) && IsDomainAllowed(Some(d2), t))
  {
  }
}
