# CloudStack cloud-provider adapter, modelled in Dafny

This project models the decision logic of the external CloudStack cloud
provider for Kubernetes (`external-cloudstack`). The provider is a thin
adapter. The orchestrator asks it which capabilities it supports, and then
for node addresses, the instance ID, the instance type, instance existence,
instance metadata and the zone. Each answer rests on one "look up virtual
machine by name / by ID" call to the CloudStack API, or on a fixed sequence of
such calls: `InstanceExists` looks up by name and then by ID, and
`InstanceMetadata` looks up the type, the addresses and, with an empty zone
cache, the zone. `GetZone` with a cached zone makes no call at all.

The remote lookup is an oracle: `Remote.Oracle` maps a `Query` to a `Lookup`.
- A `Query` is a name or an ID, plus an optional project scope.
- A `Lookup` is either `Found(instance)` or `Failed(count, cause)`.

What remains is modelled and proved:

- **Label sanitiser** (`Label`). The instance type is the service-offering
  name after `ReplaceAllString(name, "")` with the pattern
  `([^A-Za-z0-9][^-A-Za-z0-9_.]*)?[^A-Za-z0-9]`.
  - The scan follows Go's leftmost-first preferences: the optional group
    before skipping it, and a greedy star that gives characters back.
  - `MatchAt` proves that a match starts exactly at a non-alphanumeric
    character and covers only non-alphanumeric characters.
  - `ReplaceAllIsKeepAlnum` proves that the scan equals the filter
    `KeepAlnum`, which keeps the ASCII letters and digits in order.
  - So `.`, `-` and `_` are deleted too: `"m1.small"` becomes `"m1small"`.
- **Address list** (`Instances.NodeAddressesOfInstance`). The list is built
  by appending, as the source does. Its result is pinned down by
  `DescribesInstance`, which is proved to determine the list uniquely and to
  lose none of the three fields.
- **Lookup-error mapping**. For the address, ID and type operations, zero
  matches gives `InstanceNotFound` (for `InstanceExistsByProviderID`, a plain
  `false`). Any other failure gives a wrapped retrieval error. The zone
  lookups answer zero matches with their own "could not find …" error
  (`NotFound`) instead. `InstanceExists` composes the ID and existence
  mappings; `InstanceMetadata` composes the type and address mappings with
  `GetZone`'s.
- **Adapter lifecycle and zone cache** (`CloudStack`).
  - `NewCSCloud` succeeds exactly when the API URL, the key and the secret
    are all present.
  - The capability gates depend on whether a client exists.
  - `GetZone` fills an empty zone cache from the host's own instance. Once
    the cache is non-empty it is reused without a lookup; an instance with an
    empty zone name leaves the cache empty, so the next call looks up again.
    `GetZone` is specified by `ZoneStep`, and lemmas about `ZoneStep` state
    the cache behaviour.

Every Go error return in the source carries the zero value (`nil`, `""`,
`false`, an empty `Zone`). So `Wrappers.Result.Err` carries only the error.

Three behaviours of the code are easy to misread:
- The inner class `[^-A-Za-z0-9_.]` leaves out `-`, `_` and `.`, but the
  final `[^A-Za-z0-9]` still deletes them. So `"m1.small!!"` gives
  `"m1small"`, and `"##gpu-large"` gives `"gpularge"`
  (`Label.SanitizeExamples`).
- `InstanceExists` passes on `InstanceID`'s `InstanceNotFound` instead of
  answering `false` (`Instances.MissingNodeExistence`).
- `Clusters` and `Routes` log a warning only when a client exists. Either
  way the answer is "unsupported".

`InstanceMetadata` fills its provider-ID field with the provider's name
rather than an instance's provider ID. The model keeps this as written.

## Model

| member | source | states |
|---|---|---|
| `Label.RunEnd` | cloudstack_instances.go:35 | the greedy `[^-A-Za-z0-9_.]*` stops at the first character outside its class, and everything before that is inside it |
| `Label.GroupThenFinal` | cloudstack_instances.go:35 | backtracking over the star ends a match just after a non-alphanumeric character, never includes an alphanumeric one, and fails only when the star had matched nothing |
| `Label.MatchAt` | cloudstack_instances.go:35 | a leftmost-first match starts at position i exactly when `s[i]` is not in `[A-Za-z0-9]`; it is non-empty and all its characters are non-alphanumeric |
| `Label.ReplaceAllFrom` | cloudstack_instances.go:35 | the replace-all scan from position i (matches replaced by the empty string, the text between them copied) keeps no more characters than remain, and keeps only ASCII letters and digits |
| `Label.Sanitize` | cloudstack_instances.go:122 | `ReplaceAllString(name, "")` with the pattern equals the alphanumeric filter `KeepAlnum(name)` |
| `Label.ReplaceAllIsKeepAlnum` | cloudstack_instances.go:35 | the replace-all scan deletes exactly the characters outside `[A-Za-z0-9]` and keeps the rest in order |
| `Label.KeepAlnumShorter` | cloudstack_instances.go:35 | the filtered name is never longer than the input, and is equally long exactly when the input is all letters and digits |
| `Label.SanitizeProperties` | cloudstack_instances.go:122 | the instance type contains only ASCII letters and digits, is not longer than the offering name, and sanitising again changes nothing |
| `Label.SanitizeExamples` | cloudstack_instances.go:138 | `"m1.small"` and `"m1.small!!"` become `"m1small"`, and `"##gpu-large"` becomes `"gpularge"` |
| `CloudStack.ReadConfig` | cloudstack.go:69-81 | a nil reader gives the zero configuration and no error; a parse failure is wrapped; a parsed configuration is returned as it is |
| `CloudStack.NewCSCloud` | cloudstack.go:84-99 | construction succeeds exactly when API URL, API key and secret key are all non-empty, and otherwise fails with "no cloud provider config given"; on success, project and zone come from the configuration and the client verifies TLS exactly when `ssl-no-verify` is off |
| `CloudStack.CSCloud.constructor` | cloudstack.go:85-88 | the struct under construction has the configured project and zone and no client |
| `CloudStack.NilConfigHasNoCredentials` | cloudstack.go:69-99 | the configuration read from a nil reader lacks the credentials, so construction fails without a configuration file |
| `CloudStack.CSCloud.LoadBalancer` | cloudstack.go:106-112 | returns the adapter itself exactly when a client exists, otherwise nothing |
| `CloudStack.CSCloud.Instances` | cloudstack.go:115-121 | returns the adapter itself exactly when a client exists, otherwise nothing |
| `CloudStack.CSCloud.InstancesV2` | cloudstack.go:123-129 | returns the adapter itself exactly when a client exists, otherwise nothing |
| `CloudStack.CSCloud.Zones` | cloudstack.go:132-138 | returns the adapter itself exactly when a client exists, otherwise nothing |
| `CloudStack.CSCloud.Clusters` | cloudstack.go:141-148 | unsupported whether or not a client exists |
| `CloudStack.CSCloud.Routes` | cloudstack.go:151-158 | unsupported whether or not a client exists |
| `CloudStack.CSCloud.ProviderName` | cloudstack.go:161-163 | the provider's name is `"external-cloudstack"` |
| `CloudStack.CSCloud.HasClusterID` | cloudstack.go:166-168 | the cluster always has a cluster ID |
| `CloudStack.ZoneStep` | cloudstack.go:171-196 | a returned zone has failure domain and region both equal to the new cache; a failure leaves the cache unchanged; a non-empty cache is returned as it is; an empty cache is filled by looking up the host name without project scope, and a lookup failure is a not-found error exactly when the count is zero |
| `CloudStack.CSCloud.GetZone` | cloudstack.go:171-196 | result and new cache are those of `ZoneStep` on the old cache |
| `CloudStack.CachedZoneNeedsNoLookup` | cloudstack.go:174-195 | with a non-empty cache, the result does not depend on the remote platform or the host name, and the cache is unchanged |
| `CloudStack.EmptyCacheLooksUpHostOnly` | cloudstack.go:174-188 | with an empty cache, the result and the new cache depend only on the platform's answer to the one unscoped lookup of the host name |
| `CloudStack.ZoneCacheIsSticky` | cloudstack.go:174-195 | once a lookup has cached a non-empty zone, every later call returns that same zone and leaves the cache as it is, whatever the platform answers |
| `CloudStack.CSCloud.GetZoneByProviderID` | cloudstack.go:199-218 | succeeds exactly when the project-scoped ID lookup finds the instance, with failure domain and region both equal to its zone; an error is "could not find node by ID" exactly when the count is zero; the zone cache is not read |
| `CloudStack.CSCloud.GetZoneByNodeName` | cloudstack.go:221-240 | succeeds exactly when the project-scoped name lookup finds the instance, with failure domain and region both equal to its zone; an error is "could not find node" exactly when the count is zero; the zone cache is not read |
| `Instances.MapLookupFailure` | cloudstack_instances.go:43-47 | a failed lookup maps to `InstanceNotFound` exactly when the count is zero, and otherwise to a retrieval error carrying the remote cause |
| `Instances.NodeAddressesOfInstance` | cloudstack_instances.go:69-91 | fails with "no internal IP" exactly when the instance has no NIC; otherwise the list is the first NIC's address as internal IP, then the host name if non-empty, then the public IP if non-empty, with length 1 + [host name] + [public IP] |
| `Instances.DescribedAddressesAreUnique` | cloudstack_instances.go:74-90 | the address list is fully determined by the instance |
| `Instances.DescribedAddressesDecode` | cloudstack_instances.go:74-90 | the internal IP, host name and public IP are recovered from the list as the first address of their type, and a type is absent exactly when the instance lacks that value |
| `Instances.NodeAddresses` | cloudstack_instances.go:38-51 | a failed name lookup gives `InstanceNotFound` when the count is zero and otherwise the retrieval error "error retrieving node addresses" carrying the remote cause; a found instance gives exactly its described address list, or "no internal IP" when it has no NIC |
| `Instances.NodeAddressesByProviderID` | cloudstack_instances.go:54-67 | the same as by name, for the project-scoped ID lookup |
| `Instances.InstanceID` | cloudstack_instances.go:94-107 | succeeds exactly when the name lookup finds the instance and returns its ID; an error is `InstanceNotFound` exactly when the count is zero |
| `Instances.InstanceType` | cloudstack_instances.go:110-123 | succeeds exactly when the name lookup finds the instance and returns its offering name filtered to letters and digits; an error is `InstanceNotFound` exactly when the count is zero |
| `Instances.InstanceTypeByProviderID` | cloudstack_instances.go:126-139 | the same as by name, for the project-scoped ID lookup |
| `Instances.AddSSHKeyToAllInstances` | cloudstack_instances.go:142-144 | always "not implemented", with no lookup |
| `Instances.CurrentNodeName` | cloudstack_instances.go:147-149 | the node name is the given host name, with no error |
| `Instances.InstanceExistsByProviderID` | cloudstack_instances.go:152-165 | true exactly when the ID lookup finds an instance; false with no error exactly when it fails with zero matches; an error exactly when it fails otherwise |
| `Instances.InstanceShutdownByProviderID` | cloudstack_instances.go:168-170 | always "not implemented", with no lookup |
| `Instances.InstanceExists` | cloudstack_instances.go:172-180 | `InstanceID`'s error is passed on unchanged (`InstanceNotFound` exactly when the name lookup's count is zero); a found instance gives `InstanceExistsByProviderID` on its ID |
| `Instances.InstanceShutdown` | cloudstack_instances.go:182-184 | always "not implemented", with no lookup |
| `Instances.InstanceMetadata` | cloudstack_instances.go:186-210 | fails with the first failing step in the order type, addresses, zone; it leaves the cache alone when type or addresses fail, and otherwise moves it as `ZoneStep` does; on success the provider ID is the provider's name, the type is the filtered offering name, the addresses are the described list, and zone and region are the cached zone |
| `Instances.ByProviderIDAgreesWithByName` | cloudstack_instances.go:94-180 | when the platform resolves a node's ID back to the same instance, the by-ID type and zone lookups equal the by-name ones, and the node exists |
| `Instances.MissingNodeExistence` | cloudstack_instances.go:152-180 | whenever the name lookup and the ID lookup both fail with zero matches, `InstanceExists` reports `InstanceNotFound`, while `InstanceExistsByProviderID` reports false with no error |

## Left out

- The CloudStack client library (`NewAsyncClient`, `GetVirtualMachineByName/ByID`, `WithProject`) is foreign code. Its lookups are the `Oracle` parameter, and the client handle is a record of its four settings. `WithProject("")` is modelled as a scope with an empty project, not as no scope.
- The oracle is a function, so two lookups of the same query within one call get the same answer. In `InstanceMetadata` the type lookup and the address lookup therefore see the same instance; a platform that changes between the two calls is not modelled.
- The count that comes with a successful lookup is never read by the source and is not modelled.
- INI parsing of the configuration (`gcfg.ReadInto`) is foreign code. Its outcome is an input to `ReadConfig`.
- `os.Hostname()` is OS I/O. Its outcome is an input to `GetZone` and `InstanceMetadata`.
- Logging, the `init()` registration with the provider registry, the no-op `Initialize`, and the `context` arguments have no effect on results and are not modelled.
- Concurrent calls racing on the unsynchronised zone cache are not modelled; every call runs alone.
- Error messages are kept only as their fixed prefix and their argument, not as formatted text.
- The regexp engine in general is not modelled. Only the one pattern is, over Unicode characters (Go's runes); invalid UTF-8 input is not considered.
- Calling an instance or zone operation that reaches a lookup on an adapter without a client dereferences nil in the source. The model instead requires a client, which `NewCSCloud` always provides, since it never returns an adapter without one. `GetZone` with a cached zone, or with an empty cache and a failing `os.Hostname()`, returns before touching the client; the model requires a client for the empty-cache case all the same, so the hostname-failure path on a client-less adapter is not covered, and no adapter built by `NewCSCloud` can reach it.
