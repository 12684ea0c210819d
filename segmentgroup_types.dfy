/**
 * The SegmentGroup kind (apis/segmentgroup/v1alpha1), the kind an
 * ApplicationSegment's segment group reference points to: its parameters,
 * its observation and the validation its CRD schema enforces.
 */
module SegmentGroupTypes {
  import opened Wrappers

  /** SegmentGroupParameters (CustomSegmentParameters is empty). */
  datatype SegmentGroupParameters = SegmentGroupParameters(
    configSpace: string,
    description: string,
    enabled: Option<bool>,
    policyMigrated: Option<bool>,
    tcpKeepAliveEnabled: string,
    customerID: string)

  /** Observation: what the remote system assigns, and whether policies were migrated. */
  datatype Observation = Observation(
    creationTime: string,
    modifiedBy: string,
    modifiedTime: string,
    id: string,
    policyMigrated: bool)

  /** The enum marker on ConfigSpace: unset, DEFAULT or SIEM. */
  predicate ValidConfigSpace(s: string) { s in {"", "DEFAULT", "SIEM"} }

  /** The enum marker on TCPKeepAliveEnabled: unset, "0" or "1". */
  predicate ValidTcpKeepAlive(s: string) { s in {"", "0", "1"} }

  /**
   * The parameters the CRD schema admits: Enabled is required (it has no
   * omitempty) and its enum admits only true.
   */
  predicate Valid(p: SegmentGroupParameters) {
    && ValidConfigSpace(p.configSpace)
    && p.enabled == Some(true)
    && ValidTcpKeepAlive(p.tcpKeepAliveEnabled)
  }
}
