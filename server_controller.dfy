/**
 * The external client of the Server kind (pkg/controller/server): Observe,
 * Create, Update, Delete and LateInitialize against the remote
 * application-server API, the pure parts they use, and the not-found
 * classifier. This controller never compares the spec with the remote
 * server and has no update.
 */
module ServerController {
  import opened Wrappers
  import opened Errors
  import opened Runtime
  import opened ClientHelpers
  import opened ServerTypes

  const errNotServer := "managed resource is not an Server custom resource"
  const errCreateFailed := "cannot create Server"
  const errDescribeFailed := "cannot describe Server"
  const errDeleteFailed := "cannot delete Server"

  /**
   * IsNotFound: the remote API answers 400 Bad Request for an unknown
   * application server, so a GetAppServerUsingGET1BadRequest anywhere in the
   * wrap chain, at whatever depth, means "not found"; nil and every
   * other error do not.
   */
  function IsNotFound(err: Option<Error>): (r: bool)
    ensures err.None? ==> !r
    ensures err.Some? ==> (r <==> Cause(err.value).kind == GetAppServerBadRequest)
  {
    err.Some? && (AsIsCauseKind(err.value, GetAppServerBadRequest); As(err.value, GetAppServerBadRequest))
  }

  /**
   * models.ApplicationServer, both as a describe returns it and as an add
   * request carries it, reduced to the fields the controller reads or sets.
   */
  datatype ApplicationServer = ApplicationServer(
    name: Option<string>,
    address: string,
    configSpace: string,
    description: string,
    enabled: bool,
    id: string,
    creationTime: string,
    modifiedBy: string,
    modifiedTime: string)

  /** The requests the external client sends to the application-server API. */
  datatype Call =
    | GetAppServer(customerID: string, serverID: string)
    | AddAppServer(customerID: string, server: ApplicationServer)
    | DeleteAppServer(customerID: string, serverID: string)

  /**
   * The remote API as the external client sees it, for each tenant: the
   * server with an ID, and the answers to an add (the new ID) and a delete.
   */
  datatype Api = Api(
    getAppServer: (string, string) -> Result<ApplicationServer, Error>,
    addAppServer: (string, ApplicationServer) -> Result<string, Error>,
    deleteAppServer: (string, string) -> Option<Error>)

  /**
   * The server an add request carries: named after the managed resource's
   * metadata name (not spec.forProvider.name), with the address, ConfigSpace,
   * Description and Enabled (unset read as false) of the spec; the server
   * groups are not sent and the remote fields stay empty.
   */
  function Payload(metadataName: string, p: ServerParameters): (s: ApplicationServer)
    ensures s.name == Some(metadataName)
    ensures s.address == p.address && s.configSpace == p.configSpace && s.description == p.description
    ensures s.enabled <==> p.enabled == Some(true)
    ensures s.id == "" && s.creationTime == "" && s.modifiedBy == "" && s.modifiedTime == ""
  {
    ApplicationServer(
      name := String(metadataName),
      address := p.address,
      configSpace := p.configSpace,
      description := p.description,
      enabled := BoolValue(p.enabled),
      id := "",
      creationTime := "",
      modifiedBy := "",
      modifiedTime := "")
  }

  /**
   * What the spec contributes to the add request is its address,
   * ConfigSpace, Description and Enabled: the spec's own name, its server
   * groups and their references and selector never reach the remote API.
   */
  lemma PayloadIgnoresSpecNameAndGroups(metadataName: string, p: ServerParameters, q: ServerParameters)
    requires p.address == q.address && p.configSpace == q.configSpace && p.description == q.description
    requires BoolValue(p.enabled) == BoolValue(q.enabled)
    ensures Payload(metadataName, p) == Payload(metadataName, q)
  {
  }

  /** The parameters after LateInitialize: an unset ConfigSpace takes the remote one; nothing else changes. */
  function LateInit(p: ServerParameters, obj: ApplicationServer): (q: ServerParameters)
    ensures q == p.(configSpace := q.configSpace)
    ensures p.configSpace != "" ==> q == p
    ensures p.configSpace == "" ==> q.configSpace == obj.configSpace
  {
    if p.configSpace == "" then p.(configSpace := obj.configSpace) else p
  }

  /** Late initialisation from the same remote server a second time changes nothing. */
  lemma LateInitIdempotent(p: ServerParameters, obj: ApplicationServer)
    ensures LateInit(LateInit(p, obj), obj) == LateInit(p, obj)
  {
  }

  /** Late initialisation from a remote ConfigSpace the schema admits keeps the parameters valid. */
  lemma LateInitPreservesValidity(p: ServerParameters, obj: ApplicationServer)
    requires Valid(p) && ValidConfigSpace(obj.configSpace)
    ensures Valid(LateInit(p, obj))
  {
  }

  /**
   * A server created from the spec and described back unchanged leaves
   * nothing to late-initialise.
   */
  lemma LateInitOfCreatedServerIsIdentity(metadataName: string, p: ServerParameters, obj: ApplicationServer)
    requires obj.configSpace == Payload(metadataName, p).configSpace
    ensures LateInit(p, obj) == p
  {
  }

  /** generateObservation: the remote ID and timestamps. */
  function GenerateObservation(obj: ApplicationServer): (o: Observation)
    ensures o.id == obj.id && o.creationTime == obj.creationTime
    ensures o.modifiedBy == obj.modifiedBy && o.modifiedTime == obj.modifiedTime
  {
    Observation(obj.creationTime, obj.modifiedBy, obj.modifiedTime, obj.id)
  }

  /** The observation depends on the remote ID and timestamps and on nothing else. */
  lemma ObservationOnlyCopiesMetadata(a: ApplicationServer, b: ApplicationServer)
    ensures GenerateObservation(a) == GenerateObservation(b)
        <==> a.id == b.id && a.creationTime == b.creationTime
             && a.modifiedBy == b.modifiedBy && a.modifiedTime == b.modifiedTime
  {
  }

  /** LateInitialize: fills ConfigSpace in place when it is unset. */
  method LateInitialize(cr: Server, obj: ApplicationServer)
    modifies cr
    ensures cr.forProvider == LateInit(old(cr.forProvider), obj)
    ensures cr.atProvider == old(cr.atProvider) && cr.available == old(cr.available)
    ensures cr.externalName == old(cr.externalName)
  {
    if cr.forProvider.configSpace == "" {
      cr.forProvider := cr.forProvider.(configSpace := obj.configSpace);
    }
  }

  /** The external client: the remote API, the tenant it acts for, and the requests it has sent. */
  class External {
    const api: Api
    const customerID: string
    var calls: seq<Call>

    constructor(api: Api, customerID: string)
      ensures this.api == api && this.customerID == customerID && calls == []
    {
      this.api := api;
      this.customerID := customerID;
      calls := [];
    }

    /**
     * Observe: without an external name the resource does not exist and
     * nothing is asked; a failed describe leaves the resource untouched and
     * reports not-found as absence; otherwise the observation is recorded,
     * the spec is late-initialised, the resource becomes available, and it
     * is reported up to date whatever the spec says.
     */
    method Observe(cr: Server) returns (o: ExternalObservation, err: Option<Error>)
      modifies this, cr
      ensures old(cr.externalName) == "" ==>
        && o == ExternalObservation(false, false, false) && err.None? && calls == old(calls)
        && cr.forProvider == old(cr.forProvider) && cr.atProvider == old(cr.atProvider)
        && cr.available == old(cr.available)
      ensures old(cr.externalName) != "" ==> calls == old(calls) + [GetAppServer(customerID, old(cr.externalName))]
      ensures var rsp := api.getAppServer(customerID, old(cr.externalName));
        old(cr.externalName) != "" && rsp.Failure? ==>
        && o == ExternalObservation(false, false, false)
        && (err.None? <==> IsNotFound(Some(rsp.error)))
        && (err.Some? ==> err.value == Wrapped(errDescribeFailed, rsp.error))
        && cr.forProvider == old(cr.forProvider) && cr.atProvider == old(cr.atProvider)
        && cr.available == old(cr.available)
      ensures var rsp := api.getAppServer(customerID, old(cr.externalName));
        old(cr.externalName) != "" && rsp.Success? ==>
        && err.None?
        && cr.atProvider == GenerateObservation(rsp.value)
        && cr.forProvider == LateInit(old(cr.forProvider), rsp.value)
        && cr.available
        && o == ExternalObservation(true, true, cr.forProvider != old(cr.forProvider))
      ensures cr.externalName == old(cr.externalName)
    {
      var id := cr.externalName;
      if id == "" {
        return ExternalObservation(false, false, false), None;
      }
      var rsp := api.getAppServer(customerID, id);
      calls := calls + [GetAppServer(customerID, id)];
      if rsp.Failure? {
        return ExternalObservation(false, false, false), Wrap(Ignore(IsNotFound, Some(rsp.error)), errDescribeFailed);
      }
      cr.atProvider := GenerateObservation(rsp.value);
      var currentSpec := cr.forProvider;
      LateInitialize(cr, rsp.value);
      cr.available := true;
      o := ExternalObservation(true, true, cr.forProvider != currentSpec);
      err := None;
    }

    /** Create: add the server; on success the returned ID becomes the external name. */
    method Create(cr: Server) returns (creation: ExternalCreation, err: Option<Error>)
      modifies this, cr
      ensures var s := Payload(cr.name, cr.forProvider);
        var rsp := api.addAppServer(customerID, s);
        && calls == old(calls) + [AddAppServer(customerID, s)]
        && (rsp.Failure? ==> creation == ExternalCreation(false) && err == Some(Wrapped(errCreateFailed, rsp.error))
                             && cr.externalName == old(cr.externalName))
        && (rsp.Success? ==> creation == ExternalCreation(true) && err.None? && cr.externalName == rsp.value)
      ensures cr.forProvider == old(cr.forProvider) && cr.atProvider == old(cr.atProvider)
      ensures cr.available == old(cr.available)
    {
      var s := Payload(cr.name, cr.forProvider);
      var rsp := api.addAppServer(customerID, s);
      calls := calls + [AddAppServer(customerID, s)];
      if rsp.Failure? {
        return ExternalCreation(false), Some(Wrapped(errCreateFailed, rsp.error));
      }
      cr.externalName := rsp.value;
      creation, err := ExternalCreation(true), None;
    }

    /** Update: does nothing and succeeds; no request is sent. */
    method Update(cr: Server) returns (err: Option<Error>)
      ensures err.None?
      ensures calls == old(calls)
    {
      err := None;
    }

    /** Delete: without an external name it fails and sends nothing; otherwise it deletes that ID. */
    method Delete(cr: Server) returns (err: Option<Error>)
      modifies this
      ensures cr.externalName == "" ==> err == Some(New(errNotServer)) && calls == old(calls)
      ensures cr.externalName != "" ==>
        && calls == old(calls) + [DeleteAppServer(customerID, cr.externalName)]
        && err == Wrap(api.deleteAppServer(customerID, cr.externalName), errDeleteFailed)
    {
      var id := cr.externalName;
      if id == "" {
        return Some(New(errNotServer));
      }
      var rspErr := api.deleteAppServer(customerID, id);
      calls := calls + [DeleteAppServer(customerID, id)];
      err := Wrap(rspErr, errDeleteFailed);
    }
  }
}
