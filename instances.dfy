/** The instance operations of cloudstack_instances.go: addresses, identity,
    type, existence and metadata of a node, each built on at most a fixed
    sequence of remote lookups. */
module Instances {
  import opened Wrappers
  import opened Remote
  import opened CloudProvider
  import opened CloudStack
  import Label

  /** The orchestrator's node object; only its name is used. */
  datatype Node = Node(name: string)

  /** The lookup of a node by name, scoped to the adapter's project. */
  function NameLookup(cs: CSCloud, remote: Oracle, name: string): Lookup
    reads cs`projectID
  {
    remote(ByName(name, InProject(cs.projectID)))
  }

  /** The lookup of an instance by provider ID, scoped to the adapter's project. */
  function IDLookup(cs: CSCloud, remote: Oracle, providerID: string): Lookup
    reads cs`projectID
  {
    remote(ByID(providerID, InProject(cs.projectID)))
  }

  /** The error mapping shared by the address, ID and type operations: zero
      matches is the interface's not-found signal, anything else is wrapped
      with the operation's context and the remote cause. */
  function MapLookupFailure(count: int, cause: string, context: string): (e: Error)
    ensures e == InstanceNotFound <==> count == 0
    ensures e != InstanceNotFound ==> e.Retrieval? && e.cause == cause
  {
    if count == 0 then InstanceNotFound else Retrieval(context, cause)
  }

  /** The address list of an instance: its first NIC's address as the
      internal IP, then the host name if it has one, then the public IP if it
      has one. */
  predicate DescribesInstance(vm: VirtualMachine, addrs: seq<NodeAddress>) {
    && |vm.nic| > 0
    && |addrs| == 1 + (if vm.hostname != "" then 1 else 0) + (if vm.publicip != "" then 1 else 0)
    && addrs[0] == NodeAddress(NodeInternalIP, vm.nic[0].ipaddress)
    && (vm.hostname != "" ==> addrs[1] == NodeAddress(NodeHostName, vm.hostname))
    && (vm.publicip != "" ==> addrs[|addrs| - 1] == NodeAddress(NodeExternalIP, vm.publicip))
  }

  /** The address of the first entry of the given type, if any. */
  function FirstOfType(addrs: seq<NodeAddress>, t: NodeAddressType): Option<string> {
    if addrs == [] then None
    else if addrs[0].addressType == t then Some(addrs[0].address)
    else FirstOfType(addrs[1..], t)
  }

  /** `nodeAddresses`: builds the address list of an instance step by step;
      an instance without a NIC has no internal IP and is an error. */
  method NodeAddressesOfInstance(vm: VirtualMachine) returns (r: Result<seq<NodeAddress>, Error>)
    ensures r.Err? <==> |vm.nic| == 0
    ensures r.Err? ==> r.error == NoInternalIP
    ensures r.Ok? ==> DescribesInstance(vm, r.value)
  {
    if |vm.nic| == 0 {
      return Err(NoInternalIP);
    }
    var addresses := [NodeAddress(NodeInternalIP, vm.nic[0].ipaddress)];
    if vm.hostname != "" {
      addresses := addresses + [NodeAddress(NodeHostName, vm.hostname)];
    }
    if vm.publicip != "" {
      addresses := addresses + [NodeAddress(NodeExternalIP, vm.publicip)];
    }
    r := Ok(addresses);
  }

  /** The addresses of a node, looked up by name in the project. */
  method NodeAddresses(cs: CSCloud, remote: Oracle, name: string) returns (r: Result<seq<NodeAddress>, Error>)
    requires cs.client.Some?
    ensures NameLookup(cs, remote, name).Failed? ==> var lookup := NameLookup(cs, remote, name);
      r == Err(MapLookupFailure(lookup.count, lookup.cause, "error retrieving node addresses"))
    ensures NameLookup(cs, remote, name).Found? ==> var vm := NameLookup(cs, remote, name).instance;
      && (r.Err? <==> |vm.nic| == 0)
      && (r.Err? ==> r.error == NoInternalIP)
      && (r.Ok? ==> DescribesInstance(vm, r.value))
  {
    var lookup := NameLookup(cs, remote, name);
    if lookup.Failed? {
      return Err(MapLookupFailure(lookup.count, lookup.cause, "error retrieving node addresses"));
    }
    r := NodeAddressesOfInstance(lookup.instance);
  }

  /** The addresses of an instance, looked up by provider ID in the project. */
  method NodeAddressesByProviderID(cs: CSCloud, remote: Oracle, providerID: string) returns (r: Result<seq<NodeAddress>, Error>)
    requires cs.client.Some?
    ensures IDLookup(cs, remote, providerID).Failed? ==> var lookup := IDLookup(cs, remote, providerID);
      r == Err(MapLookupFailure(lookup.count, lookup.cause, "error retrieving node addresses"))
    ensures IDLookup(cs, remote, providerID).Found? ==> var vm := IDLookup(cs, remote, providerID).instance;
      && (r.Err? <==> |vm.nic| == 0)
      && (r.Err? ==> r.error == NoInternalIP)
      && (r.Ok? ==> DescribesInstance(vm, r.value))
  {
    var lookup := IDLookup(cs, remote, providerID);
    if lookup.Failed? {
      return Err(MapLookupFailure(lookup.count, lookup.cause, "error retrieving node addresses"));
    }
    r := NodeAddressesOfInstance(lookup.instance);
  }

  /** The provider ID of a node, looked up by name in the project. */
  function InstanceID(cs: CSCloud, remote: Oracle, name: string): (r: Result<string, Error>)
    reads cs`client, cs`projectID
    requires cs.client.Some?
    ensures r.Ok? <==> NameLookup(cs, remote, name).Found?
    ensures r.Ok? ==> r.value == NameLookup(cs, remote, name).instance.id
    ensures r.Err? ==> (r.error == InstanceNotFound <==> NameLookup(cs, remote, name).count == 0)
  {
    match NameLookup(cs, remote, name)
    case Failed(count, cause) => Err(MapLookupFailure(count, cause, "error retrieving instance ID"))
    case Found(vm) => Ok(vm.id)
  }

  /** The instance type of a node: its service-offering name reduced to a
      label-safe string. */
  function InstanceType(cs: CSCloud, remote: Oracle, name: string): (r: Result<string, Error>)
    reads cs`client, cs`projectID
    requires cs.client.Some?
    ensures r.Ok? <==> NameLookup(cs, remote, name).Found?
    ensures r.Ok? ==> r.value == Label.KeepAlnum(NameLookup(cs, remote, name).instance.serviceofferingname)
    ensures r.Err? ==> (r.error == InstanceNotFound <==> NameLookup(cs, remote, name).count == 0)
  {
    match NameLookup(cs, remote, name)
    case Failed(count, cause) => Err(MapLookupFailure(count, cause, "error retrieving instance type"))
    case Found(vm) => Ok(Label.Sanitize(vm.serviceofferingname))
  }

  /** The instance type of an instance given by provider ID. */
  function InstanceTypeByProviderID(cs: CSCloud, remote: Oracle, providerID: string): (r: Result<string, Error>)
    reads cs`client, cs`projectID
    requires cs.client.Some?
    ensures r.Ok? <==> IDLookup(cs, remote, providerID).Found?
    ensures r.Ok? ==> r.value == Label.KeepAlnum(IDLookup(cs, remote, providerID).instance.serviceofferingname)
    ensures r.Err? ==> (r.error == InstanceNotFound <==> IDLookup(cs, remote, providerID).count == 0)
  {
    match IDLookup(cs, remote, providerID)
    case Failed(count, cause) => Err(MapLookupFailure(count, cause, "error retrieving instance type"))
    case Found(vm) => Ok(Label.Sanitize(vm.serviceofferingname))
  }

  /** Not supported; no lookup is made. */
  function AddSSHKeyToAllInstances(user: string, keyData: seq<bv8>): (err: Option<Error>)
    ensures err == Some(NotImplemented)
  {
    Some(NotImplemented)
  }

  /** The name of the node this process runs on is the host name it is given. */
  function CurrentNodeName(hostname: string): (r: Result<string, Error>)
    ensures r.Ok? && r.value == hostname
  {
    Ok(hostname)
  }

  /** Whether an instance with the provider ID still exists: zero matches is a
      plain "no", any other lookup failure is an error. */
  function InstanceExistsByProviderID(cs: CSCloud, remote: Oracle, providerID: string): (r: Result<bool, Error>)
    reads cs`client, cs`projectID
    requires cs.client.Some?
    ensures r == Ok(true) <==> IDLookup(cs, remote, providerID).Found?
    ensures r == Ok(false) <==> IDLookup(cs, remote, providerID).Failed? && IDLookup(cs, remote, providerID).count == 0
    ensures r.Err? <==> IDLookup(cs, remote, providerID).Failed? && IDLookup(cs, remote, providerID).count != 0
  {
    match IDLookup(cs, remote, providerID)
    case Failed(count, cause) =>
      if count == 0 then Ok(false) else Err(Retrieval("error retrieving instance", cause))
    case Found(_) => Ok(true)
  }

  /** Not supported; no lookup is made. */
  function InstanceShutdownByProviderID(providerID: string): (r: Result<bool, Error>)
    ensures r == Err(NotImplemented)
  {
    Err(NotImplemented)
  }

  /** Whether a node's instance exists: its provider ID is looked up by name
      first, and any failure there, not-found included, is returned as it is. */
  function InstanceExists(cs: CSCloud, remote: Oracle, node: Node): (r: Result<bool, Error>)
    reads cs`client, cs`projectID
    requires cs.client.Some?
    ensures NameLookup(cs, remote, node.name).Failed? ==>
      r.Err? && (r.error == InstanceNotFound <==> NameLookup(cs, remote, node.name).count == 0)
    ensures InstanceID(cs, remote, node.name).Err? ==> r == Err(InstanceID(cs, remote, node.name).error)
    ensures NameLookup(cs, remote, node.name).Found? ==>
      r == InstanceExistsByProviderID(cs, remote, NameLookup(cs, remote, node.name).instance.id)
  {
    match InstanceID(cs, remote, node.name)
    case Err(e) => Err(e)
    case Ok(providerID) => InstanceExistsByProviderID(cs, remote, providerID)
  }

  /** Not supported; no lookup is made. */
  function InstanceShutdown(node: Node): (r: Result<bool, Error>)
    ensures r == Err(NotImplemented)
  {
    Err(NotImplemented)
  }

  /** The metadata of a node: its type, then its addresses, then the zone,
      stopping at the first failure; the provider ID field carries the
      provider's name, and zone and region are the (possibly just cached) zone. */
  method InstanceMetadata(cs: CSCloud, remote: Oracle, hostname: Result<string, string>, node: Node)
    returns (r: Result<CloudProvider.InstanceMetadata, Error>)
    requires cs.client.Some?
    modifies cs`zone
    ensures NameLookup(cs, remote, node.name).Failed? ==>
      && r == Err(MapLookupFailure(NameLookup(cs, remote, node.name).count, NameLookup(cs, remote, node.name).cause, "error retrieving instance type"))
      && cs.zone == old(cs.zone)
    ensures NameLookup(cs, remote, node.name).Found? && |NameLookup(cs, remote, node.name).instance.nic| == 0 ==>
      r == Err(NoInternalIP) && cs.zone == old(cs.zone)
    ensures NameLookup(cs, remote, node.name).Found? && |NameLookup(cs, remote, node.name).instance.nic| > 0 ==>
      var step := ZoneStep(old(cs.zone), remote, hostname);
      && cs.zone == step.1
      && (r.Ok? <==> step.0.Ok?)
      && (step.0.Err? ==> r == Err(step.0.error))
    ensures r.Ok? ==> var vm := NameLookup(cs, remote, node.name).instance;
      && r.value.providerID == PROVIDER_NAME
      && r.value.instanceType == Label.KeepAlnum(vm.serviceofferingname)
      && DescribesInstance(vm, r.value.nodeAddresses)
      && r.value.zone == cs.zone
      && r.value.region == cs.zone
  {
    var instanceType := InstanceType(cs, remote, node.name);
    if instanceType.Err? {
      return Err(instanceType.error);
    }
    var addresses := NodeAddresses(cs, remote, node.name);
    if addresses.Err? {
      return Err(addresses.error);
    }
    var zone := cs.GetZone(remote, hostname);
    if zone.Err? {
      return Err(zone.error);
    }
    r := Ok(CloudProvider.InstanceMetadata(cs.ProviderName(), instanceType.value, addresses.value, cs.zone, zone.value.region));
  }

  /** The address list of an instance is determined by the instance. */
  lemma DescribedAddressesAreUnique(vm: VirtualMachine, a: seq<NodeAddress>, b: seq<NodeAddress>)
    requires DescribesInstance(vm, a) && DescribesInstance(vm, b)
    ensures a == b
  {
    forall k | 0 <= k < |a| ensures a[k] == b[k] {
      if k == 1 && vm.hostname == "" {
        assert vm.publicip != "";
      }
    }
  }

  /** The address list loses nothing: the internal IP, the host name and the
      public IP are each recovered as the first address of their type, and a
      type is missing exactly when the instance has no value for it. */
  lemma DescribedAddressesDecode(vm: VirtualMachine, addrs: seq<NodeAddress>)
    requires DescribesInstance(vm, addrs)
    ensures FirstOfType(addrs, NodeInternalIP) == Some(vm.nic[0].ipaddress)
    ensures FirstOfType(addrs, NodeHostName) == if vm.hostname != "" then Some(vm.hostname) else None
    ensures FirstOfType(addrs, NodeExternalIP) == if vm.publicip != "" then Some(vm.publicip) else None
  {
    var internal := NodeAddress(NodeInternalIP, vm.nic[0].ipaddress);
    var host := NodeAddress(NodeHostName, vm.hostname);
    var external := NodeAddress(NodeExternalIP, vm.publicip);
    if vm.hostname != "" && vm.publicip != "" {
      assert addrs == [internal, host, external];
      assert addrs[1..] == [host, external] && addrs[1..][1..] == [external];
      assert FirstOfType([external], NodeExternalIP) == Some(vm.publicip);
    } else if vm.hostname != "" {
      assert addrs == [internal, host];
      assert addrs[1..] == [host] && addrs[1..][1..] == [];
      assert FirstOfType([host], NodeExternalIP) == None;
    } else if vm.publicip != "" {
      assert addrs == [internal, external];
      assert addrs[1..] == [external] && addrs[1..][1..] == [];
      assert FirstOfType([external], NodeHostName) == None;
    } else {
      assert addrs[1..] == [];
    }
  }

  /** When the platform resolves a node's provider ID back to the same
      instance, the by-ID operations agree with the by-name ones. */
  lemma ByProviderIDAgreesWithByName(cs: CSCloud, remote: Oracle, name: string)
    requires cs.client.Some?
    requires NameLookup(cs, remote, name).Found?
    requires IDLookup(cs, remote, NameLookup(cs, remote, name).instance.id) == NameLookup(cs, remote, name)
    ensures InstanceID(cs, remote, name).Ok?
    ensures InstanceTypeByProviderID(cs, remote, InstanceID(cs, remote, name).value) == InstanceType(cs, remote, name)
    ensures cs.GetZoneByProviderID(remote, InstanceID(cs, remote, name).value) == cs.GetZoneByNodeName(remote, name)
    ensures InstanceExists(cs, remote, Node(name)) == Ok(true)
  {
  }

  /** A node the platform does not know is reported differently by the two
      existence checks: `InstanceExists` passes on the not-found error of
      `InstanceID`'s name lookup, while `InstanceExistsByProviderID` answers a plain "no". */
  lemma MissingNodeExistence(cs: CSCloud, remote: Oracle, name: string, providerID: string)
    requires cs.client.Some?
    requires NameLookup(cs, remote, name).Failed? && NameLookup(cs, remote, name).count == 0
    requires IDLookup(cs, remote, providerID).Failed? && IDLookup(cs, remote, providerID).count == 0
    ensures InstanceExists(cs, remote, Node(name)) == Err(InstanceNotFound)
    ensures InstanceExistsByProviderID(cs, remote, providerID) == Ok(false)
  {
  }
}
