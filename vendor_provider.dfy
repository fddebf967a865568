/** `providerConfigure` of the older generation: one required setting, the domain controller. */
module VendorProvider {
  import opened Wrappers

  datatype DNSClient = DNSClient(domainController: string)

  /** Go's `(interface{}, error)` return. */
  datatype Configured = Configured(client: Option<DNSClient>, err: Option<string>)

  const DomainControllerMissing: string := "The 'domain_controller' property was not specified."

  /**
   * An empty domain_controller gives the error and no client; any other value
   * gives a client holding exactly that string and no error.
   */
  function ProviderConfigure(domainController: string): (r: Configured)
    ensures r.client.None? <==> r.err.Some?
    ensures r.err.Some? <==> domainController == ""
    ensures r.err.Some? ==> r.err.value == DomainControllerMissing
    ensures r.client.Some? ==> r.client.value.domainController == domainController
  {
    if domainController == "" then Configured(None, Some(DomainControllerMissing))
    else Configured(Some(DNSClient(domainController)), None)
  }
}
