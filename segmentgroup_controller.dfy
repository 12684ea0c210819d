/** The not-found classifier of the SegmentGroup kind (pkg/controller/segmentgroup). */
module SegmentGroupController {
  import opened Wrappers
  import opened Errors

  /**
   * IsNotFound: the remote API answers 400 Bad Request for an unknown
   * segment group, so a GetSegmentGroupUsingGET1BadRequest anywhere in the
   * wrap chain, at whatever depth, means "not found"; nil and every
   * other error do not.
   */
  function IsNotFound(err: Option<Error>): (r: bool)
    ensures err.None? ==> !r
    ensures err.Some? ==> (r <==> Cause(err.value).kind == GetSegmentGroupBadRequest)
  {
    err.Some? && (AsIsCauseKind(err.value, GetSegmentGroupBadRequest); As(err.value, GetSegmentGroupBadRequest))
  }
}
