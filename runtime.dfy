/**
 * The parts of crossplane-runtime the provider's core uses: references and
 * selectors, credential selectors, the reference-resolution request and
 * response, and the results an external client returns to the managed
 * reconciler.
 */
module Runtime {
  import opened Wrappers

  /** xpv1.Reference: the name of another managed resource. */
  datatype Reference = Reference(name: string)

  /** xpv1.Selector: label selection of a referenced resource. */
  datatype Selector = Selector(matchLabels: map<string, string>, matchControllerRef: Option<bool>)

  /** xpv1.CredentialsSource */
  datatype CredentialsSource = SourceNone | SourceSecret | SourceInjectedIdentity | SourceEnvironment | SourceFilesystem

  /** xpv1.SecretKeySelector: a key in a namespaced Secret. */
  datatype SecretKeySelector = SecretKeySelector(name: string, namespace: string, key: string)

  /** xpv1.CommonCredentialSelectors, reduced to the Secret selector the provider reads. */
  datatype CommonCredentialSelectors = CommonCredentialSelectors(secretRef: Option<SecretKeySelector>)

  /** managed.ExternalObservation */
  datatype ExternalObservation = ExternalObservation(
    resourceExists: bool,
    resourceUpToDate: bool,
    resourceLateInitialized: bool)

  /** managed.ExternalCreation */
  datatype ExternalCreation = ExternalCreation(externalNameAssigned: bool)

  /** reference.ResolutionRequest, without the target kind and the extractor. */
  datatype ResolutionRequest = ResolutionRequest(
    currentValue: string,
    reference: Option<Reference>,
    selector: Option<Selector>)

  /** reference.ResolutionResponse */
  datatype ResolutionResponse = ResolutionResponse(resolvedValue: string, resolvedReference: Option<Reference>)

  /** reference.FromPtrValue: nil reads as the empty string. */
  function FromPtrValue(v: Option<string>): string {
    match v
    case None => ""
    case Some(s) => s
  }

  /** reference.ToPtrValue: the empty string is written back as nil. */
  function ToPtrValue(s: string): (r: Option<string>)
    ensures FromPtrValue(r) == s
    ensures r.None? <==> s == ""
  {
    if s == "" then None else Some(s)
  }

  /** Writing back what was read changes nothing, except that a set-but-empty value becomes nil. */
  lemma PtrValueRoundTrip(v: Option<string>)
    ensures ToPtrValue(FromPtrValue(v)) == v <==> v != Some("")
  {
  }
}
