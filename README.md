# provider-zpa, modelled in Dafny

A model of the core of the Crossplane provider for Zscaler Private Access
(ZPA). The provider runs one external client per managed-resource kind.
Each client maps a Kubernetes managed resource onto a remote ZPA object
through four operations: Observe, Create, Update and Delete.

This model covers three kinds:

- **ApplicationSegment** (`applicationsegment_types.dfy`, `applicationsegment_controller.dfy`)
- **ServerGroup** (`servergroup_types.dfy`, `servergroup_controller.dfy`)
- **Server** (`server_types.dfy`, `server_controller.dfy`)

It also covers the SegmentGroup kind's parameters and not-found classifier
(`segmentgroup_types.dfy`, `segmentgroup_controller.dfy`). Finally, it
covers the connection set-up in `pkg/client/zpa.go` (`zpa.dfy`). That
set-up finds the ProviderConfig, tracks its use, reads the client id and
client secret from Kubernetes Secrets, and builds the form-encoded sign-in
request.

How the pieces are represented:

- **Managed resource.** A class. It holds the metadata name, `spec.forProvider`,
  `status.atProvider`, the Available condition as a flag, and the external-name
  annotation.
- **Remote API.** A datatype of total functions, one per endpoint, each
  answering for a tenant.
- **External client.** A class. It holds that API, the tenant it acts for,
  and the log of the describe, add, update and delete requests it has sent.
- **Specifications.** Each Observe, Create, Update and Delete method is proved
  against pure functions: `LateInit`, `IsUpToDate`, `Payload`,
  `ServerGroupEntries` / `ConnectorGroupEntries` and `GenerateObservation` /
  `ObservationOf`.
- **Properties of the functions.** These are proved as lemmas:
  - late initialisation is idempotent, keeps the schema's enum constraints
    and never makes an up-to-date resource stale;
  - the up-to-date check is equality of two views, ignores list order and
    ignores the server groups;
  - what Create sends reads back as up to date;
  - not-found classification looks through any wrap chain;
  - the sign-in form body decodes back to exactly the two credentials.
- **Connection set-up.** Its order of checks is a predicate,
  `Zpa.ConfiguredFrom`. It fixes which step's failure wins and exactly which
  Kubernetes requests were made.

Behaviour of the code worth noting:

- **Delete with no external name.** Every Delete returns the kind's
  "not a … custom resource" error and sends nothing.
- **Delete of a referenced object.** Every Delete sends the delete request
  alone; no kind updates dependent objects first.
- **Server's Observe.** It always reports an existing server up to date,
  and Server's Update does nothing.
- **Fields outside the up-to-date check.** ApplicationSegment's check
  does not compare the segment group or the server groups. ServerGroup's
  check does not compare the name, Enabled or the connector groups.
- **ServerGroup messages.** Its error messages say "Server", and one says
  "connot update Server". They are kept as written.

## Model

| member | source | states |
|---|---|---|
| Errors.Wrap | pkg/controller/applicationsegment/controller.go:126 | a nil error stays nil; otherwise one layer of context is added, the cause is kept and the message is "context: cause" |
| Errors.Ignore | pkg/controller/applicationsegment/controller.go:126 | an error the classifier accepts is dropped; any other is returned unchanged |
| Errors.AsIsCauseKind | pkg/controller/applicationsegment/convert_types.go:10-14 | errors.As finds a concrete type on the wrap chain exactly when the chain's root has that type |
| Runtime.ToPtrValue | apis/applicationsegment/v1alpha1/referencers.go:41 | the written-back pointer reads back as the resolved value; it is nil exactly for "" |
| Runtime.PtrValueRoundTrip | apis/applicationsegment/v1alpha1/referencers.go:32-41 | reading a pointer and writing it back restores it, except that a pointer to "" becomes nil |
| ClientHelpers.BoolValue | pkg/controller/applicationsegment/controller.go:160-168 | a request bool is true exactly when the spec pointer is set to true; unset is sent as false |
| ClientHelpers.StringToPtr | pkg/controller/applicationsegment/controller.go:368 | "" becomes nil and any other string a pointer to it |
| ClientHelpers.IsEqualBool | pkg/controller/applicationsegment/controller.go:388-417 | equal pointers compare equal, and two set pointers compare equal exactly when their values agree |
| ClientHelpers.IsEqualStringArrayContent | pkg/controller/applicationsegment/controller.go:420-430 | lists that compare equal have the same length and the same members |
| ClientHelpers.StringToPtrComparison | pkg/controller/applicationsegment/controller.go:368-386 | comparing two strings through StringToPtr is plain string equality |
| ClientHelpers.SetBoolComparison | pkg/controller/applicationsegment/controller.go:388-417 | a set spec bool compared with the remote bool is equal exactly when it holds that value |
| FormEncoding.QueryEscape | pkg/client/zpa.go:103-105 | an escaped value contains no '&' or '=', and it is between one and three times as long as the input |
| FormEncoding.UnescapeEscape | pkg/client/zpa.go:103-107 | unescaping an escaped byte string gives the string back |
| FormEncoding.FieldRoundTrip | pkg/client/zpa.go:104-105 | one encoded key=value field parses back to its key and value |
| FormEncoding.SigninFormRoundTrip | pkg/client/zpa.go:103-107 | the sign-in body parses to exactly two fields, client_id and then client_secret, each carrying its credential unchanged |
| Zpa.InvalidSecretData | pkg/client/zpa.go:52 | the message is the missing key between single quotes, followed by " is required in secret data" |
| Zpa.KubeClient.GetProviderConfigNamed | pkg/client/zpa.go:68-71 | answers what the cluster holds for the name and logs the lookup |
| Zpa.KubeClient.Track | pkg/client/zpa.go:73-76 | answers whether usage tracking fails and logs the request |
| Zpa.KubeClient.GetSecretNamed | pkg/client/zpa.go:150-153 | answers what the cluster holds for the namespace and name and logs the lookup |
| Zpa.CredentialsFromSecret | pkg/client/zpa.go:146-166 | no selector gives errExtractSecretKey; a failed Secret lookup is wrapped in errGetCredentialsSecret; a token is returned iff the Secret exists and holds the key, and it is that key's value; a missing key gives the formatted errInvalidSecretData and nothing else does |
| Zpa.ExtractCredentialsFromSecret | pkg/client/zpa.go:146-166 | returns CredentialsFromSecret of the cluster's Secrets and makes exactly one Secret lookup, or none without a selector |
| Zpa.CredentialErrorsIgnoreSecretValues | pkg/client/zpa.go:147-159 | whether a token is read, and the error when it is not, depend only on which Secrets and keys exist, never on the stored bytes |
| Zpa.EffectiveBasepath | pkg/client/zpa.go:96-99 | the base path is never empty: a non-empty configured path is used, and an unset or empty one becomes "/" |
| Zpa.Signin | pkg/client/zpa.go:101-113 | a POST to "https://" + host + "/signin" with the form content type, a Content-Length equal to the body length, and a body that decodes to the two credentials |
| Zpa.UseProviderConfig | pkg/client/zpa.go:67-113 | the outcome and the Kubernetes requests are exactly ConfiguredFrom: get the config, track, check the id source, read the id, check the secret source, read the secret, with the first failure deciding the wrapped error; on success, the host, the effective base path and the sign-in request |
| Zpa.GetConfig | pkg/client/zpa.go:57-64 | without a ProviderConfig reference it fails with errNoProviderConfigRef and asks Kubernetes nothing; otherwise it behaves as UseProviderConfig |
| Zpa.ConnectionNeedsBothSecrets | pkg/client/zpa.go:78-94 | a connection is produced only when both credentials come from Secrets and both can be read, and its sign-in body carries them |
| ApplicationSegmentTypes.Valid | apis/applicationsegment/v1alpha1/applicationsegment.go:48-82 | BypassType, ConfigSpace, HealthCheckType, HealthReporting and IcmpAccessType are unset or one of their enum values; LateInitPreservesValidity is proved against it |
| ApplicationSegmentTypes.SegmentGroupRequest | apis/applicationsegment/v1alpha1/referencers.go:31-37 | the request carries the spec's reference and selector; its current value is empty exactly when the segment group ID is unset or "" |
| ApplicationSegmentTypes.ApplicationSegment.ResolveReferences | apis/applicationsegment/v1alpha1/referencers.go:27-45 | a failed resolution is wrapped in the field path and leaves the spec as it was; a successful one writes back the resolved ID and reference and changes nothing else |
| ApplicationSegmentTypes.ResolvingCurrentValueIsStable | apis/applicationsegment/v1alpha1/referencers.go:32-42 | resolving to the current ID and reference leaves the spec unchanged, unless the ID was set to "" |
| ApplicationSegmentController.IsNotFound | pkg/controller/applicationsegment/convert_types.go:10-14 | nil is not "not found"; an error is "not found" exactly when its root is a GetApplicationUsingGET1BadRequest |
| ApplicationSegmentController.ServerGroupEntries | pkg/controller/applicationsegment/controller.go:176-193 | succeeds iff every server-group lookup succeeds, with one {ID, name} entry per ID in order; otherwise it is the first failed lookup wrapped in errServerGroupNotFound |
| ApplicationSegmentController.FirstFailureIsUnique | pkg/controller/applicationsegment/controller.go:176-185 | when lookup i is the first to fail, the list is exactly that lookup's wrapped error |
| ApplicationSegmentController.Payload | pkg/controller/applicationsegment/controller.go:153-172 | the application Create and Update send carries exactly the spec's view of every compared field (unset bools as false), the segment group ID with unset as "", the looked-up server groups, and empty remote-assigned fields |
| ApplicationSegmentController.LateInit | pkg/controller/applicationsegment/controller.go:294-336 | each unset bool takes the remote value and each empty enum string the remote string; set fields and every other field are unchanged |
| ApplicationSegmentController.LateInitIdempotent | pkg/controller/applicationsegment/controller.go:294-336 | late-initialising twice from the same remote application changes nothing more |
| ApplicationSegmentController.LateInitPreservesValidity | pkg/controller/applicationsegment/controller.go:294-336 | with remote enum values the schema admits, late initialisation keeps the parameters valid |
| ApplicationSegmentController.IsUpToDate | pkg/controller/applicationsegment/controller.go:365-437 | the 17 comparisons in the source's order; its meaning is stated by UpToDateIffViewsAgree below |
| ApplicationSegmentController.UpToDateIffViewsAgree | pkg/controller/applicationsegment/controller.go:365-437 | up to date iff the 17 compared fields agree, with "" and unset alike, unset bools read as false, and lists compared as multisets |
| ApplicationSegmentController.UpToDateIgnoresGroups | pkg/controller/applicationsegment/controller.go:365-437 | the segment group, the server groups and their references never affect the result, on either side |
| ApplicationSegmentController.UpToDateIgnoresListOrder | pkg/controller/applicationsegment/controller.go:420-430 | reordering domain names or port ranges never makes the resource stale |
| ApplicationSegmentController.SentPayloadIsUpToDate | pkg/controller/applicationsegment/controller.go:153-173 | the application Create or Update sends, reported back unchanged, is up to date |
| ApplicationSegmentController.LateInitKeepsUpToDate | pkg/controller/applicationsegment/controller.go:131-138 | late initialisation never turns an up-to-date resource stale |
| ApplicationSegmentController.ObservationOf | pkg/controller/applicationsegment/controller.go:339-362 | the observation carries the remote ID, timestamps and server groups, and only 10 of the parameters, with the bools as set pointers |
| ApplicationSegmentController.ObservationOmitsFields | pkg/controller/applicationsegment/controller.go:339-362 | remote applications that differ only in fields the observation omits give the same observation |
| ApplicationSegmentController.GenerateObservation | pkg/controller/applicationsegment/controller.go:339-362 | the append loop over the server groups builds exactly ObservationOf |
| ApplicationSegmentController.LateInitialize | pkg/controller/applicationsegment/controller.go:294-336 | the spec becomes LateInit of the old spec; status, condition and external name are unchanged |
| ApplicationSegmentController.External.ServerGroupPayload | pkg/controller/applicationsegment/controller.go:176-193 | the lookup loop returns exactly ServerGroupEntries |
| ApplicationSegmentController.External.Observe | pkg/controller/applicationsegment/controller.go:104-141 | no external name: absent and nothing asked. Failed describe: absent, not-found swallowed, other errors wrapped, resource untouched. Success: observation recorded, spec late-initialised, resource available, up to date per IsUpToDate on the late-initialised spec, late-initialised iff the spec changed |
| ApplicationSegmentController.External.Create | pkg/controller/applicationsegment/controller.go:143-205 | a failed lookup sends nothing; otherwise it adds Payload(spec, entries); the returned ID becomes the external name, and a failure is wrapped in errCreateFailed with the name untouched |
| ApplicationSegmentController.External.Update | pkg/controller/applicationsegment/controller.go:207-265 | a failed lookup sends nothing; otherwise it updates the external-name ID with Payload(spec, entries), and a failure is wrapped in errUpdateFailed |
| ApplicationSegmentController.External.Delete | pkg/controller/applicationsegment/controller.go:267-292 | no external name gives errNotApplicationSegment and sends nothing; otherwise it deletes that ID with ForceDelete set to true, and a failure is wrapped in errDeleteFailed |
| ServerGroupController.IsNotFound | pkg/controller/servergroup/convert_types.go:10-14 | nil is not "not found"; an error is "not found" exactly when its root is a GetServerGroupUsingGET1BadRequest |
| ServerGroupController.ConnectorGroupEntries | pkg/controller/servergroup/controller.go:159-178 | succeeds iff every connector-group lookup succeeds, with one {name, ID} entry per ID in order; otherwise it is the first failed lookup wrapped in the given context |
| ServerGroupController.FirstFailureIsUnique | pkg/controller/servergroup/controller.go:159-170 | when lookup i is the first to fail, the list is exactly that lookup's wrapped error |
| ServerGroupController.Payload | pkg/controller/servergroup/controller.go:149-156 | the server group Create and Update send carries the spec's name, ConfigSpace, Description and DynamicDiscovery, Enabled and IPAnchored with unset sent as false, and the looked-up connector groups |
| ServerGroupController.LateInit | pkg/controller/servergroup/controller.go:266-276 | ConfigSpace takes the remote value only when it is empty here and set there; IPAnchored takes the remote value when unset; nothing else changes |
| ServerGroupController.LateInitIdempotent | pkg/controller/servergroup/controller.go:266-276 | late-initialising twice from the same remote group changes nothing more |
| ServerGroupController.LateInitPreservesValidity | pkg/controller/servergroup/controller.go:266-276 | with a remote ConfigSpace the schema admits, late initialisation keeps the parameters valid |
| ServerGroupController.IsUpToDate | pkg/controller/servergroup/controller.go:293-313 | the four comparisons in the source's order; its meaning is stated by UpToDateIffViewsAgree below |
| ServerGroupController.UpToDateIffViewsAgree | pkg/controller/servergroup/controller.go:293-313 | up to date iff Description, ConfigSpace, IPAnchored (unset read as false) and DynamicDiscovery agree |
| ServerGroupController.UpToDateIgnoresNameEnabledAndConnectors | pkg/controller/servergroup/controller.go:293-313 | the name, Enabled and the connector groups never affect the result, on either side |
| ServerGroupController.StoredPayloadIsUpToDate | pkg/controller/servergroup/controller.go:149-156 | a remote group storing what Create or Update sent is up to date |
| ServerGroupController.LateInitKeepsUpToDate | pkg/controller/servergroup/controller.go:127-134 | late initialisation never turns an up-to-date resource stale |
| ServerGroupController.GenerateObservation | pkg/controller/servergroup/controller.go:279-290 | the observation is the remote ID and timestamps |
| ServerGroupController.ObservationOnlyCopiesMetadata | pkg/controller/servergroup/controller.go:279-290 | two remote groups give the same observation iff their ID and timestamps agree |
| ServerGroupController.LateInitialize | pkg/controller/servergroup/controller.go:266-276 | the spec becomes LateInit of the old spec; nothing else changes |
| ServerGroupController.External.ConnectorGroupPayload | pkg/controller/servergroup/controller.go:159-178 | the lookup loop returns exactly ConnectorGroupEntries |
| ServerGroupController.External.Observe | pkg/controller/servergroup/controller.go:100-137 | the same three outcomes as ApplicationSegment's Observe, using this kind's IsNotFound, LateInit and IsUpToDate |
| ServerGroupController.External.Create | pkg/controller/servergroup/controller.go:139-190 | a failed lookup is wrapped in errCreateConnectorGroupNotFound and sends nothing; otherwise it adds Payload(spec, entries), and the returned ID becomes the external name |
| ServerGroupController.External.Update | pkg/controller/servergroup/controller.go:192-238 | a failed lookup is wrapped in errUpdateConnectorGroupNotFound and sends nothing; otherwise it updates the external-name ID, and a failure is wrapped in "connot update Server" |
| ServerGroupController.External.Delete | pkg/controller/servergroup/controller.go:240-264 | no external name gives errNotServer and sends nothing; otherwise it deletes that ID, and a failure is wrapped in errDeleteFailed |
| ServerGroupController.LookupErrorsDistinguishCreateFromUpdate | pkg/controller/servergroup/controller.go:48-49 | Create and Update report the same failed lookup with the same cause but under different, distinguishable messages |
| ServerGroupTypes.Valid | apis/servergroup/v1alpha1/servergroup.go:35-36 | ConfigSpace is unset, DEFAULT or SIEM; LateInitPreservesValidity is proved against it |
| ServerTypes.Valid | apis/server/v1alpha1/server.go:38-55 | ConfigSpace is unset, DEFAULT or SIEM, and the required Name is set; LateInitPreservesValidity is proved against it |
| ServerController.IsNotFound | pkg/controller/server/convert_types.go:10-14 | nil is not "not found"; an error is "not found" exactly when its root is a GetAppServerUsingGET1BadRequest |
| ServerController.Payload | pkg/controller/server/controller.go:143-149 | the server is named after the metadata name; it carries the spec's address, ConfigSpace and Description, is enabled iff Enabled is set to true, and has no remote fields |
| ServerController.PayloadIgnoresSpecNameAndGroups | pkg/controller/server/controller.go:143-149 | specs that agree on address, ConfigSpace, Description and Enabled send the same server, whatever their name and server groups |
| ServerController.LateInit | pkg/controller/server/controller.go:193-199 | an empty ConfigSpace takes the remote one, even an empty one; nothing else changes |
| ServerController.LateInitIdempotent | pkg/controller/server/controller.go:193-199 | late-initialising twice from the same remote server changes nothing more |
| ServerController.LateInitPreservesValidity | pkg/controller/server/controller.go:193-199 | with a remote ConfigSpace the schema admits, late initialisation keeps the parameters valid |
| ServerController.LateInitOfCreatedServerIsIdentity | pkg/controller/server/controller.go:143-149 | a server that reports back the ConfigSpace Create sent leaves nothing to late-initialise |
| ServerController.GenerateObservation | pkg/controller/server/controller.go:202-213 | the observation is the remote ID and timestamps |
| ServerController.ObservationOnlyCopiesMetadata | pkg/controller/server/controller.go:202-213 | two remote servers give the same observation iff their ID and timestamps agree |
| ServerController.LateInitialize | pkg/controller/server/controller.go:193-199 | the spec becomes LateInit of the old spec; nothing else changes |
| ServerController.External.Observe | pkg/controller/server/controller.go:96-132 | the same outcomes as the other kinds, except that an existing server is always reported up to date |
| ServerController.External.Create | pkg/controller/server/controller.go:134-162 | adds Payload(metadata name, spec); the returned ID becomes the external name, and a failure is wrapped in errCreateFailed with the name untouched |
| ServerController.External.Update | pkg/controller/server/controller.go:164-166 | does nothing and succeeds |
| ServerController.External.Delete | pkg/controller/server/controller.go:168-191 | no external name gives errNotServer and sends nothing; otherwise it deletes that ID, and a failure is wrapped in errDeleteFailed |
| SegmentGroupTypes.Valid | apis/segmentgroup/v1alpha1/segmentgroup.go:30-49 | ConfigSpace is unset, DEFAULT or SIEM; the required Enabled is set and true; TCPKeepAliveEnabled is unset, "0" or "1" |
| SegmentGroupController.IsNotFound | pkg/controller/segmentgroup/convert_types.go:10-14 | nil is not "not found"; an error is "not found" exactly when its root is a GetSegmentGroupUsingGET1BadRequest |

## Left out

- **HTTP exchange.** Sending the sign-in request, reading the response,
  decoding the access token, and building the bearer-token transport
  (pkg/client/zpa.go:115-139) are not modelled. They are I/O. `Zpa.Connection`
  stops at the request, the host and the base path.
- **http.NewRequestWithContext.** Its failure on a malformed host
  (pkg/client/zpa.go:107-110) is not modelled. The URL is built but not parsed.
- **Content-Length.** It is modelled as the body length, an integer, not as
  its decimal rendering.
- **Usage tracking.** It is one request that may fail. The usage store
  behind it is not modelled.
- **Connect and setup.** Connect, newClientFn, the Setup* functions and the
  type assertion of each operation are not modelled. They are framework wiring,
  and a resource of the wrong type cannot be expressed in the typed model.
- **Tenant ID.** `zpaclient.CustomerID` is not part of this model, and its
  error is discarded at the call sites. The Server controller reads a
  `CustomerID` field that its parameters type does not declare. Every
  External therefore takes the tenant as an opaque constant and logs it with
  each request.
- **Server-group and connector-group name lookups.** They are not logged in
  `calls`, because they are reads. Their answers and their order are in
  `ServerGroupEntries` / `ConnectorGroupEntries`.
- **Application kind and legacy Segment type.** The Application kind
  (pkg/controller/application, apis/application) and the legacy Segment type
  (apis/segment) are not part of this model.
- **Reference resolution.** It is modelled only as the segment-group
  write-back of ApplicationSegment, against an abstract resolver. Pinning and
  selector matching happen inside crossplane-runtime. The server-group
  references and selectors are carried but not resolved.
- **Conditions.** Only Available is modelled, as a flag. `cmp.Equal` is
  structural equality of the parameter datatypes.
- **Nil versus empty.** Nil and empty lists are not told apart. Nor are a
  nil `*AppServerGroup` and an entry in the remote server-group list: a nil
  entry would crash generateObservation.
- **Required non-pointer fields.** Their schema requirement (for example the
  SegmentGroup `customerID` and the ApplicationSegment `name`) has no
  value-level content and is not part of `Valid`.
- **ClientHelpers.** `Bool`, `BoolValue`, `String`, `StringValue`,
  `StringToPtr`, `IsEqualString`, `IsEqualBool` and `IsEqualStringArrayContent`
  are assumed definitions. Their Go source is not part of this model.
  - `IsEqualBool` reads an unset pointer as false.
  - `IsEqualStringArrayContent` is multiset equality.
- **Form encoding.** `url.Values.Encode` is modelled for the two sign-in
  keys, which are already in sorted order. The decoder exists only to state
  the round trip.
- ApplicationSegmentController.LateInitialize: fills each field with a
  helper that keeps a set value. This is equivalent to the source's sequence
  of ifs, and the ensures states the same result field by field.
- SegmentGroupController: the SegmentGroup controller's operations are not
  part of this model. Only its not-found classifier and its parameter types
  are.
- ApplicationSegmentController.SentPayloadIsUpToDate: holds for a spec with unset *bool fields only because IsEqualBool is assumed to read an unset pointer as false; on the Observe path every *bool is set by late initialisation, where the assumption plays no part.
- ServerGroupController.StoredPayloadIsUpToDate: holds for an unset IPAnchored only because IsEqualBool is assumed to read an unset pointer as false; on the Observe path IPAnchored is set by late initialisation.
