/**
 * The ApplicationSegment kind (apis/applicationsegment/v1alpha1): its
 * parameters, its observation, the validation its CRD schema enforces, and
 * the managed resource itself with the reference resolution that fills in
 * its segment group.
 */
module ApplicationSegmentTypes {
  import opened Wrappers
  import opened Errors
  import opened Runtime

  /**
   * ApplicationSegmentParameters, with the inlined
   * CustomApplicationSegmentParameters first. A string enum field reads ""
   * when unset; a *bool or *string field is an Option.
   */
  datatype ApplicationSegmentParameters = ApplicationSegmentParameters(
    segmentGroupIDRef: Option<Reference>,
    segmentGroupIDSelector: Option<Selector>,
    serverGroupRefs: seq<Reference>,
    serverGroupSelector: Option<Selector>,
    bypassType: string,
    configSpace: string,
    defaultIdleTimeout: string,
    defaultMaxAge: string,
    description: string,
    domainNames: seq<string>,
    doubleEncrypt: Option<bool>,
    enabled: Option<bool>,
    healthCheckType: string,
    healthReporting: string,
    icmpAccessType: string,
    ipAnchored: Option<bool>,
    isCnameEnabled: Option<bool>,
    passiveHealthEnabled: Option<bool>,
    segmentGroupID: Option<string>,
    tcpPortRanges: seq<string>,
    udpPortRanges: seq<string>,
    serverGroups: seq<string>,
    name: string)

  /** A server group as an application segment lists it; only its name is optional. */
  datatype AppServerGroup = AppServerGroup(
    configSpace: string,
    creationTime: string,
    description: string,
    dynamicDiscovery: bool,
    enabled: bool,
    id: string,
    modifiedBy: string,
    modifiedTime: string,
    name: Option<string>)

  /** Observation: what the remote system assigned, plus a copy of the parameters it reports. */
  datatype Observation = Observation(
    creationTime: string,
    modifiedBy: string,
    modifiedTime: string,
    id: string,
    serverGroup: seq<AppServerGroup>,
    applicationSegment: ApplicationSegmentParameters)

  /** Every field at its Go zero value. */
  const EmptyParameters := ApplicationSegmentParameters(
    None, None, [], None, "", "", "", "", "", [], None, None, "", "", "", None, None, None, None, [], [], [], "")

  const EmptyObservation := Observation("", "", "", "", [], EmptyParameters)

  /** The enum markers: each field is unset or one of the listed values. */
  predicate ValidBypassType(s: string) { s in {"", "ALWAYS", "NEVER", "ON_NET"} }
  predicate ValidConfigSpace(s: string) { s in {"", "DEFAULT", "SIEM"} }
  predicate ValidHealthCheckType(s: string) { s in {"", "DEFAULT", "NONE"} }
  predicate ValidHealthReporting(s: string) { s in {"", "NONE", "ON_ACCESS", "CONTINUOUS"} }
  predicate ValidIcmpAccessType(s: string) { s in {"", "PING_TRACEROUTING", "PING", "NONE"} }

  /** The parameters the CRD schema admits. */
  predicate Valid(p: ApplicationSegmentParameters) {
    && ValidBypassType(p.bypassType)
    && ValidConfigSpace(p.configSpace)
    && ValidHealthCheckType(p.healthCheckType)
    && ValidHealthReporting(p.healthReporting)
    && ValidIcmpAccessType(p.icmpAccessType)
  }

  /** The path errors.Wrap puts in front of a failed segment group resolution. */
  const SegmentGroupIDPath := "spec.forProvider.segmentGroupID"

  /** The request ResolveReferences sends for the segment group: the current ID, the reference and the selector. */
  function SegmentGroupRequest(p: ApplicationSegmentParameters): (req: ResolutionRequest)
    ensures req.currentValue == "" <==> p.segmentGroupID.None? || p.segmentGroupID == Some("")
    ensures req.reference == p.segmentGroupIDRef && req.selector == p.segmentGroupIDSelector
  {
    ResolutionRequest(FromPtrValue(p.segmentGroupID), p.segmentGroupIDRef, p.segmentGroupIDSelector)
  }

  /** The ApplicationSegment managed resource, as the reconciler hands it to the external client. */
  class ApplicationSegment {
    /** metadata.name */
    const name: string
    /** spec.forProvider */
    var forProvider: ApplicationSegmentParameters
    /** status.atProvider */
    var atProvider: Observation
    /** Whether the Available condition is set. */
    var available: bool
    /** The crossplane.io/external-name annotation; "" when absent. */
    var externalName: string

    constructor(name: string, forProvider: ApplicationSegmentParameters)
      ensures this.name == name && this.forProvider == forProvider
      ensures atProvider == EmptyObservation && !available && externalName == ""
    {
      this.name := name;
      this.forProvider := forProvider;
      atProvider := EmptyObservation;
      available := false;
      externalName := "";
    }

    /**
     * ResolveReferences: resolve the segment group reference and write the
     * resolved ID and reference back, or leave the spec as it was and report
     * the failure under the field's path.
     */
    method ResolveReferences(resolve: ResolutionRequest -> Result<ResolutionResponse, Error>) returns (err: Option<Error>)
      modifies this
      ensures var rsp := resolve(SegmentGroupRequest(old(forProvider)));
        && (rsp.Failure? ==> err == Some(Wrapped(SegmentGroupIDPath, rsp.error)) && forProvider == old(forProvider))
        && (rsp.Success? ==> err.None? && forProvider == old(forProvider).(
              segmentGroupID := ToPtrValue(rsp.value.resolvedValue),
              segmentGroupIDRef := rsp.value.resolvedReference))
      ensures atProvider == old(atProvider) && available == old(available) && externalName == old(externalName)
    {
      var rsp := resolve(SegmentGroupRequest(forProvider));
      if rsp.Failure? {
        return Some(Wrapped(SegmentGroupIDPath, rsp.error));
      }
      forProvider := forProvider.(segmentGroupID := ToPtrValue(rsp.value.resolvedValue));
      forProvider := forProvider.(segmentGroupIDRef := rsp.value.resolvedReference);
      err := None;
    }
  }

  /**
   * Resolution only rewrites the segment group ID and its reference: a
   * resolver that answers with the current ID and reference leaves the
   * parameters as they were, unless the ID was set to the empty string,
   * which becomes unset.
   */
  lemma ResolvingCurrentValueIsStable(p: ApplicationSegmentParameters, rsp: ResolutionResponse)
    requires rsp.resolvedValue == SegmentGroupRequest(p).currentValue
    requires rsp.resolvedReference == p.segmentGroupIDRef
    ensures p.(segmentGroupID := ToPtrValue(rsp.resolvedValue), segmentGroupIDRef := rsp.resolvedReference) == p
        <==> p.segmentGroupID != Some("")
  {
    PtrValueRoundTrip(p.segmentGroupID);
  }
}
