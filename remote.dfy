/** The shapes of the CloudStack API that the adapter consumes, and the remote
    "look up virtual machine" call abstracted as an oracle. */
module Remote {

  /** A network interface of a virtual machine; only its address is used. */
  datatype Nic = Nic(ipaddress: string)

  /** A snapshot of a virtual machine as the remote API reports it. */
  datatype VirtualMachine = VirtualMachine(
    id: string,
    name: string,
    hostname: string,
    zonename: string,
    serviceofferingname: string,
    publicip: string,
    nic: seq<Nic>)

  /** Whether a lookup is narrowed by `WithProject(projectID)`. */
  datatype Scope = AnyProject | InProject(projectID: string)

  /** `GetVirtualMachineByName` and `GetVirtualMachineByID`. */
  datatype Query = ByName(name: string, scope: Scope) | ByID(id: string, scope: Scope)

  /** The `(instance, count, err)` triple of a lookup: with `err == nil` the
      instance is used, otherwise only `count` and the error text are. */
  datatype Lookup = Found(instance: VirtualMachine) | Failed(count: int, cause: string)

  /** The remote platform's answer to each query. */
  type Oracle = Query -> Lookup
}
