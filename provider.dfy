/** The orchestrator-facing data shapes of the cloud-provider interface and the
    error kinds the adapter returns. */
module CloudProvider {

  /** `ProviderName`, the name this provider registers under. */
  const PROVIDER_NAME: string := "external-cloudstack"

  datatype NodeAddressType = NodeInternalIP | NodeHostName | NodeExternalIP

  datatype NodeAddress = NodeAddress(addressType: NodeAddressType, address: string)

  datatype Zone = Zone(failureDomain: string, region: string)

  datatype InstanceMetadata = InstanceMetadata(
    providerID: string,
    instanceType: string,
    nodeAddresses: seq<NodeAddress>,
    zone: string,
    region: string)

  /** The kinds of error the adapter returns; the strings are the fixed prefix
      of the formatted message and the cause or argument formatted after it. */
  datatype Error =
    | InstanceNotFound                          // cloudprovider.InstanceNotFound
    | NotImplemented                            // cloudprovider.NotImplemented
    | NoInternalIP                              // "instance does not have an internal IP"
    | NoProviderConfig                          // "no cloud provider config given"
    | ConfigParse(cause: string)                // "could not parse cloud provider config"
    | HostnameUnavailable(cause: string)        // "failed to get hostname for retrieving the zone"
    | NotFound(context: string, detail: string) // "could not find ...: %v"
    | Retrieval(context: string, cause: string) // "error retrieving ...: %v"
}
