/**
 * Go errors as the provider uses them: concrete error values created by the
 * REST client or by errors.New, optionally wrapped by pkg/errors.Wrap, and
 * inspected with errors.As. A nil error is None in an Option<Error>.
 */
module Errors {
  import opened Wrappers

  /** The concrete Go type of an error at the root of a wrap chain. */
  datatype Kind =
    | Plain                      // errors.New / fmt.Sprintf-built message
    | GetApplicationBadRequest   // application_controller.GetApplicationUsingGET1BadRequest
    | GetServerGroupBadRequest   // server_group_controller.GetServerGroupUsingGET1BadRequest
    | GetAppServerBadRequest     // app_server_controller.GetAppServerUsingGET1BadRequest
    | GetSegmentGroupBadRequest  // segment_group_controller.GetSegmentGroupUsingGET1BadRequest
    | RemoteStatus(code: int)    // any other non-2xx answer of the REST client
    | Transport                  // network or context failure
    | Kube                       // failure reported by the Kubernetes API client

  /** An error: a root value, or one layer of context around a cause. */
  datatype Error =
    | Base(kind: Kind, text: string)
    | Wrapped(context: string, cause: Error)

  /** errors.New */
  function New(text: string): Error {
    Base(Plain, text)
  }

  /** errors.Cause: the root of the wrap chain. */
  function Cause(e: Error): (root: Error)
    ensures root.Base?
  {
    match e
    case Base(_, _) => e
    case Wrapped(_, c) => Cause(c)
  }

  /** Error(): the message, with each context prefixed as "context: cause". */
  function Text(e: Error): string {
    match e
    case Base(_, t) => t
    case Wrapped(ctx, c) => ctx + ": " + Text(c)
  }

  /**
   * errors.Wrap: a nil error stays nil; any other error gains one layer of
   * context and keeps its cause.
   */
  function Wrap(err: Option<Error>, context: string): (r: Option<Error>)
    ensures r.None? <==> err.None?
    ensures r.Some? ==> Cause(r.value) == Cause(err.value)
    ensures r.Some? ==> Text(r.value) == context + ": " + Text(err.value)
  {
    match err
    case None => None
    case Some(e) => Some(Wrapped(context, e))
  }

  /**
   * errors.As with a target of concrete type k: walks the unwrap chain and
   * reports whether an error of that type is on it.
   */
  predicate As(e: Error, k: Kind) {
    match e
    case Base(kind, _) => kind == k
    case Wrapped(_, c) => As(c, k)
  }

  /** Only the root of a chain has a concrete type, so errors.As looks at the cause. */
  lemma {:induction false} AsIsCauseKind(e: Error, k: Kind)
    ensures As(e, k) <==> Cause(e).kind == k
  {
    match e
    case Base(_, _) =>
    case Wrapped(_, c) => AsIsCauseKind(c, k);
  }

  /** crossplane-runtime resource.Ignore: drops the error when the classifier accepts it. */
  function Ignore(classify: Option<Error> -> bool, err: Option<Error>): (r: Option<Error>)
    ensures classify(err) ==> r.None?
    ensures !classify(err) ==> r == err
  {
    if classify(err) then None else err
  }
}
