/**
 * The ServerGroup kind (apis/servergroup/v1alpha1): its parameters, its
 * observation, the validation its CRD schema enforces, and the managed
 * resource itself.
 */
module ServerGroupTypes {
  import opened Wrappers

  /**
   * ServerGroupParameters. DynamicDiscovery is a plain bool (false when
   * omitted, never unset); Enabled and IPAnchored are *bool.
   */
  datatype ServerGroupParameters = ServerGroupParameters(
    enabled: Option<bool>,
    description: string,
    ipAnchored: Option<bool>,
    configSpace: string,
    dynamicDiscovery: bool,
    appConnectorGroups: seq<string>,
    name: string)

  /** Observation: only what the remote system assigns. */
  datatype Observation = Observation(
    creationTime: string,
    modifiedBy: string,
    modifiedTime: string,
    id: string)

  const EmptyObservation := Observation("", "", "", "")

  /** The enum marker on ConfigSpace: unset, DEFAULT or SIEM. */
  predicate ValidConfigSpace(s: string) { s in {"", "DEFAULT", "SIEM"} }

  /** The parameters the CRD schema admits. */
  predicate Valid(p: ServerGroupParameters) {
    ValidConfigSpace(p.configSpace)
  }

  /** The ServerGroup managed resource, as the reconciler hands it to the external client. */
  class ServerGroup {
    /** metadata.name */
    const name: string
    /** spec.forProvider */
    var forProvider: ServerGroupParameters
    /** status.atProvider */
    var atProvider: Observation
    /** Whether the Available condition is set. */
    var available: bool
    /** The crossplane.io/external-name annotation; "" when absent. */
    var externalName: string

    constructor(name: string, forProvider: ServerGroupParameters)
      ensures this.name == name && this.forProvider == forProvider
      ensures atProvider == EmptyObservation && !available && externalName == ""
    {
      this.name := name;
      this.forProvider := forProvider;
      atProvider := EmptyObservation;
      available := false;
      externalName := "";
    }
  }
}
