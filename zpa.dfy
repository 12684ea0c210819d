/**
 * The provider's connection set-up (pkg/client/zpa.go): find the
 * ProviderConfig the managed resource points to, track its use, read the
 * client id and the client secret from Kubernetes Secrets, and build the
 * sign-in request for the configured host. The model stops at the
 * constructed request; sending it and decoding the token are not modelled.
 */
module Zpa {
  import opened Wrappers
  import opened Errors
  import opened Runtime
  import opened ClientHelpers
  import FormEncoding

  const errNoProviderConfigRef := "no providerConfigRef is given"
  const errCannotGetProvider := "cannot get referenced Provider"
  const errCannotTrackProviderConfigUsage := "cannot track ProviderConfig usage"
  const errOnlySecretSourceAllowed := "only Secret supported as Source"
  const errExtractSecret := "cannot extract credentials from secret"
  const errExtractSecretKey := "cannot extract secret key"
  const errGetCredentialsSecret := "cannot get credentials secret"

  /** errInvalidSecretData formatted with the missing key. */
  function InvalidSecretData(key: string): (msg: string)
    ensures |msg| > |key| + 1 && msg[0] == '\'' && msg[1..|key| + 1] == key && msg[|key| + 1] == '\''
    ensures msg[|key| + 2..] == " is required in secret data"
  {
    var quoted := "'" + key + "'";
    assert (quoted + " is required in secret data")[|quoted|..] == " is required in secret data";
    quoted + " is required in secret data"
  }

  /** v1alpha1.ProviderCredentials: where one credential comes from. */
  datatype ProviderCredentials = ProviderCredentials(source: CredentialsSource, selectors: CommonCredentialSelectors)

  /** v1alpha1.ProviderConfigSpec */
  datatype ProviderConfigSpec = ProviderConfigSpec(
    clientID: ProviderCredentials,
    clientSecret: ProviderCredentials,
    host: string,
    basepath: Option<string>)

  /** The data of a Secret: byte values by key. */
  type SecretData = map<string, seq<FormEncoding.byte>>

  /** The requests the Kubernetes client receives, in the order it receives them. */
  datatype KubeCall =
    | GetProviderConfig(name: string)
    | TrackUsage(resource: string)
    | GetSecret(namespace: string, name: string)

  /**
   * The Kubernetes API as the connection set-up sees it: what each lookup
   * answers, and whether usage tracking fails for a resource.
   */
  datatype KubeApi = KubeApi(
    providerConfigs: string -> Result<ProviderConfigSpec, Error>,
    trackUsage: string -> Option<Error>,
    secrets: (string, string) -> Result<SecretData, Error>)

  /** The Kubernetes client: answers from api, and appends every request to calls. */
  class KubeClient {
    const api: KubeApi
    var calls: seq<KubeCall>

    constructor(api: KubeApi)
      ensures this.api == api
      ensures calls == []
    {
      this.api := api;
      calls := [];
    }

    /** client.Get of a cluster-scoped ProviderConfig. */
    method GetProviderConfigNamed(name: string) returns (r: Result<ProviderConfigSpec, Error>)
      modifies this
      ensures r == api.providerConfigs(name)
      ensures calls == old(calls) + [GetProviderConfig(name)]
    {
      r := api.providerConfigs(name);
      calls := calls + [GetProviderConfig(name)];
    }

    /** ProviderConfigUsageTracker.Track for one managed resource. */
    method Track(resource: string) returns (err: Option<Error>)
      modifies this
      ensures err == api.trackUsage(resource)
      ensures calls == old(calls) + [TrackUsage(resource)]
    {
      err := api.trackUsage(resource);
      calls := calls + [TrackUsage(resource)];
    }

    /** client.Get of a namespaced Secret. */
    method GetSecretNamed(namespace: string, name: string) returns (r: Result<SecretData, Error>)
      modifies this
      ensures r == api.secrets(namespace, name)
      ensures calls == old(calls) + [GetSecret(namespace, name)]
    {
      r := api.secrets(namespace, name);
      calls := calls + [GetSecret(namespace, name)];
    }
  }

  /**
   * extractCredentialsFromSecret as a function of what the Secrets hold:
   * no selector is an error, a failed lookup is wrapped, a missing key is
   * named in the error, and otherwise the token is the key's value.
   */
  function CredentialsFromSecret(secrets: (string, string) -> Result<SecretData, Error>,
                                 s: CommonCredentialSelectors): (r: Result<seq<FormEncoding.byte>, Error>)
    ensures s.secretRef.None? ==> r == Failure(New(errExtractSecretKey))
    ensures s.secretRef.Some? && secrets(s.secretRef.value.namespace, s.secretRef.value.name).Failure? ==>
      r == Failure(Wrapped(errGetCredentialsSecret, secrets(s.secretRef.value.namespace, s.secretRef.value.name).error))
    ensures r.Success? <==>
      s.secretRef.Some? &&
      secrets(s.secretRef.value.namespace, s.secretRef.value.name).Success? &&
      s.secretRef.value.key in secrets(s.secretRef.value.namespace, s.secretRef.value.name).value
    ensures r.Success? ==>
      r.value == secrets(s.secretRef.value.namespace, s.secretRef.value.name).value[s.secretRef.value.key]
    ensures s.secretRef.Some? && secrets(s.secretRef.value.namespace, s.secretRef.value.name).Success? ==>
      (s.secretRef.value.key !in secrets(s.secretRef.value.namespace, s.secretRef.value.name).value <==>
       r == Failure(New(InvalidSecretData(s.secretRef.value.key))))
  {
    match s.secretRef
    case None => Failure(New(errExtractSecretKey))
    case Some(ref) =>
      match secrets(ref.namespace, ref.name)
      case Failure(e) => Failure(Wrapped(errGetCredentialsSecret, e))
      case Success(data) =>
        if ref.key !in data then Failure(New(InvalidSecretData(ref.key)))
        else Success(data[ref.key])
  }

  /** The Kubernetes requests extractCredentialsFromSecret makes: one Secret lookup, or none without a selector. */
  function SecretCalls(s: CommonCredentialSelectors): seq<KubeCall> {
    match s.secretRef
    case None => []
    case Some(ref) => [GetSecret(ref.namespace, ref.name)]
  }

  /** extractCredentialsFromSecret */
  method ExtractCredentialsFromSecret(c: KubeClient, s: CommonCredentialSelectors) returns (r: Result<seq<FormEncoding.byte>, Error>)
    modifies c
    ensures r == CredentialsFromSecret(c.api.secrets, s)
    ensures c.calls == old(c.calls) + SecretCalls(s)
  {
    if s.secretRef.None? {
      return Failure(New(errExtractSecretKey));
    }
    var ref := s.secretRef.value;
    var secret := c.GetSecretNamed(ref.namespace, ref.name);
    if secret.Failure? {
      return Failure(Wrapped(errGetCredentialsSecret, secret.error));
    }
    if ref.key !in secret.value {
      return Failure(New(InvalidSecretData(ref.key)));
    }
    r := Success(secret.value[ref.key]);
  }

  /**
   * Whether a token could be read never depends on the bytes stored in the
   * Secrets, only on which Secrets and keys exist; and a failure's error is
   * the same whatever those bytes are.
   */
  lemma CredentialErrorsIgnoreSecretValues(
    secrets1: (string, string) -> Result<SecretData, Error>,
    secrets2: (string, string) -> Result<SecretData, Error>,
    s: CommonCredentialSelectors)
    requires forall ns, n ::
      secrets1(ns, n).Failure? == secrets2(ns, n).Failure? &&
      (secrets1(ns, n).Failure? ==> secrets1(ns, n).error == secrets2(ns, n).error) &&
      (secrets1(ns, n).Success? ==> secrets1(ns, n).value.Keys == secrets2(ns, n).value.Keys)
    ensures CredentialsFromSecret(secrets1, s).Success? == CredentialsFromSecret(secrets2, s).Success?
    ensures CredentialsFromSecret(secrets1, s).Failure? ==>
      CredentialsFromSecret(secrets1, s).error == CredentialsFromSecret(secrets2, s).error
  {
    if s.secretRef.Some? {
      var ref := s.secretRef.value;
      var d1, d2 := secrets1(ref.namespace, ref.name), secrets2(ref.namespace, ref.name);
      if d1.Success? {
        assert ref.key in d1.value <==> ref.key in d1.value.Keys;
        assert ref.key in d2.value <==> ref.key in d2.value.Keys;
      }
    }
  }

  /** The base path the transport uses: the configured one, or "/" when it is unset or empty. */
  function EffectiveBasepath(configured: Option<string>): (r: string)
    ensures r != ""
    ensures StringValue(configured) != "" ==> r == StringValue(configured)
    ensures StringValue(configured) == "" ==> r == "/"
  {
    if StringValue(configured) == "" then "/" else StringValue(configured)
  }

  /** The sign-in request UseProviderConfig builds before sending it. */
  datatype SigninRequest = SigninRequest(
    httpMethod: string,
    url: string,
    contentType: string,
    contentLength: int,
    body: seq<FormEncoding.byte>)

  /**
   * The form POST to https://host/signin carrying the two credentials;
   * its body decodes to exactly client_id and client_secret, in that order.
   */
  function Signin(host: string, clientID: seq<FormEncoding.byte>, clientSecret: seq<FormEncoding.byte>): (r: SigninRequest)
    ensures r.httpMethod == "POST"
    ensures r.url == "https://" + host + "/signin"
    ensures r.contentType == "application/x-www-form-urlencoded"
    ensures r.contentLength == |r.body|
    ensures FormEncoding.ParseQuery(r.body)
         == Some([(FormEncoding.ClientIdKey, clientID), (FormEncoding.ClientSecretKey, clientSecret)])
  {
    var body := FormEncoding.EncodeSigninForm(clientID, clientSecret);
    FormEncoding.SigninFormRoundTrip(clientID, clientSecret);
    SigninRequest("POST", "https://" + host + "/signin", "application/x-www-form-urlencoded", |body|, body)
  }

  /** What the validated configuration yields: the host, the base path and the sign-in request. */
  datatype Connection = Connection(host: string, basepath: string, signin: SigninRequest)

  /**
   * The outcome of UseProviderConfig for the ProviderConfig named refName:
   * the first failing step decides the error, in the order get the config,
   * track usage, check the client id source, read the client id, check the
   * client secret source, read the client secret; the requests made are
   * exactly those of the steps reached.
   */
  predicate ConfiguredFrom(kube: KubeApi, resource: string, refName: string,
                          before: seq<KubeCall>, after: seq<KubeCall>, r: Result<Connection, Error>)
  {
    var pc := kube.providerConfigs(refName);
    var fetched := before + [GetProviderConfig(refName)];
    if pc.Failure? then
      r == Failure(Wrapped(errCannotGetProvider, pc.error)) && after == fetched
    else
      var spec, tracked := pc.value, fetched + [TrackUsage(resource)];
      if kube.trackUsage(resource).Some? then
        r == Failure(Wrapped(errCannotTrackProviderConfigUsage, kube.trackUsage(resource).value)) && after == tracked
      else if spec.clientID.source != SourceSecret then
        r == Failure(New(errOnlySecretSourceAllowed)) && after == tracked
      else
        var id, idRead := CredentialsFromSecret(kube.secrets, spec.clientID.selectors), tracked + SecretCalls(spec.clientID.selectors);
        if id.Failure? then
          r == Failure(Wrapped(errExtractSecret, id.error)) && after == idRead
        else if spec.clientSecret.source != SourceSecret then
          r == Failure(New(errOnlySecretSourceAllowed)) && after == idRead
        else
          var secret := CredentialsFromSecret(kube.secrets, spec.clientSecret.selectors);
          after == idRead + SecretCalls(spec.clientSecret.selectors) &&
          if secret.Failure? then
            r == Failure(Wrapped(errExtractSecret, secret.error))
          else
            r == Success(Connection(spec.host, EffectiveBasepath(spec.basepath), Signin(spec.host, id.value, secret.value)))
  }

  /** UseProviderConfig up to the sign-in request, for a resource whose ProviderConfig reference is set. */
  method UseProviderConfig(c: KubeClient, resource: string, ref: Reference) returns (r: Result<Connection, Error>)
    modifies c
    ensures ConfiguredFrom(c.api, resource, ref.name, old(c.calls), c.calls, r)
  {
    var pc := c.GetProviderConfigNamed(ref.name);
    if pc.Failure? {
      return Failure(Wrapped(errCannotGetProvider, pc.error));
    }
    var spec := pc.value;

    var trackErr := c.Track(resource);
    if trackErr.Some? {
      return Failure(Wrapped(errCannotTrackProviderConfigUsage, trackErr.value));
    }

    if spec.clientID.source != SourceSecret {
      return Failure(New(errOnlySecretSourceAllowed));
    }
    var clientID := ExtractCredentialsFromSecret(c, spec.clientID.selectors);
    if clientID.Failure? {
      return Failure(Wrapped(errExtractSecret, clientID.error));
    }

    if spec.clientSecret.source != SourceSecret {
      return Failure(New(errOnlySecretSourceAllowed));
    }
    var clientSecret := ExtractCredentialsFromSecret(c, spec.clientSecret.selectors);
    if clientSecret.Failure? {
      return Failure(Wrapped(errExtractSecret, clientSecret.error));
    }

    var basepath := StringValue(spec.basepath);
    if basepath == "" {
      basepath := "/";
    }
    r := Success(Connection(spec.host, basepath, Signin(spec.host, clientID.value, clientSecret.value)));
  }

  /**
   * GetConfig: without a ProviderConfig reference it fails at once and asks
   * Kubernetes nothing; otherwise it is UseProviderConfig.
   */
  method GetConfig(c: KubeClient, resource: string, ref: Option<Reference>) returns (r: Result<Connection, Error>)
    modifies c
    ensures ref.None? ==> r == Failure(New(errNoProviderConfigRef)) && c.calls == old(c.calls)
    ensures ref.Some? ==> ConfiguredFrom(c.api, resource, ref.value.name, old(c.calls), c.calls, r)
  {
    match ref
    case None =>
      return Failure(New(errNoProviderConfigRef));
    case Some(pcRef) =>
      r := UseProviderConfig(c, resource, pcRef);
  }

  /**
   * A configuration is produced only when both credentials come from
   * Secrets and both could be read; the sign-in form then carries them.
   */
  lemma ConnectionNeedsBothSecrets(kube: KubeApi, resource: string, refName: string,
                                   before: seq<KubeCall>, after: seq<KubeCall>, r: Result<Connection, Error>)
    requires ConfiguredFrom(kube, resource, refName, before, after, r)
    requires r.Success?
    ensures kube.providerConfigs(refName).Success?
    ensures var spec := kube.providerConfigs(refName).value;
      && spec.clientID.source == SourceSecret
      && spec.clientSecret.source == SourceSecret
      && CredentialsFromSecret(kube.secrets, spec.clientID.selectors).Success?
      && CredentialsFromSecret(kube.secrets, spec.clientSecret.selectors).Success?
      && r.value.basepath == EffectiveBasepath(spec.basepath)
      && FormEncoding.ParseQuery(r.value.signin.body) == Some([
           (FormEncoding.ClientIdKey, CredentialsFromSecret(kube.secrets, spec.clientID.selectors).value),
           (FormEncoding.ClientSecretKey, CredentialsFromSecret(kube.secrets, spec.clientSecret.selectors).value)])
  {
  }
}
