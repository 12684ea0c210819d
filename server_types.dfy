/**
 * The Server kind (apis/server/v1alpha1): its parameters, its observation,
 * the validation its CRD schema enforces, and the managed resource itself.
 */
module ServerTypes {
  import opened Wrappers
  import opened Runtime

  /**
   * ServerParameters, with the inlined CustomServerParameters first. The
   * server groups are IDs of ServerGroup resources, filled in from
   * serverGroupRefs or serverGroupSelector.
   */
  datatype ServerParameters = ServerParameters(
    serverGroupRefs: seq<Reference>,
    serverGroupSelector: Option<Selector>,
    configSpace: string,
    description: string,
    dynamicDiscovery: Option<bool>,
    enabled: Option<bool>,
    address: string,
    name: Option<string>,
    serverGroups: seq<string>)

  /** Observation: only what the remote system assigns. */
  datatype Observation = Observation(
    creationTime: string,
    modifiedBy: string,
    modifiedTime: string,
    id: string)

  const EmptyObservation := Observation("", "", "", "")

  /** The enum marker on ConfigSpace: unset, DEFAULT or SIEM. */
  predicate ValidConfigSpace(s: string) { s in {"", "DEFAULT", "SIEM"} }

  /** The parameters the CRD schema admits: a known ConfigSpace and a name, which is required. */
  predicate Valid(p: ServerParameters) {
    ValidConfigSpace(p.configSpace) && p.name.Some?
  }

  /** The Server managed resource, as the reconciler hands it to the external client. */
  class Server {
    /** metadata.name */
    const name: string
    /** spec.forProvider */
    var forProvider: ServerParameters
    /** status.atProvider */
    var atProvider: Observation
    /** Whether the Available condition is set. */
    var available: bool
    /** The crossplane.io/external-name annotation; "" when absent. */
    var externalName: string

    constructor(name: string, forProvider: ServerParameters)
      ensures this.name == name && this.forProvider == forProvider
      ensures atProvider == EmptyObservation && !available && externalName == ""
    {
      this.name := name;
      this.forProvider := forProvider;
      atProvider := EmptyObservation;
      available := false;
      externalName := "";
    }
  }
}
