/**
 * The external client of the ServerGroup kind (pkg/controller/servergroup):
 * Observe, Create, Update, Delete and LateInitialize against the remote
 * server-group API, the pure parts they use, and the not-found classifier.
 * Its error messages say "Server" although the kind is ServerGroup; they
 * are kept as the controller has them.
 */
module ServerGroupController {
  import opened Wrappers
  import opened Errors
  import opened Runtime
  import opened ClientHelpers
  import opened ServerGroupTypes

  const errNotServer := "managed resource is not an Server custom resource"
  const errCreateConnectorGroupNotFound := "cannot find needed ConnectorGroup create failed"
  const errUpdateConnectorGroupNotFound := "cannot find needed ConnectorGroup update failed"
  const errCreateFailed := "cannot create Server"
  const errUpdateFailed := "connot update Server"
  const errDescribeFailed := "cannot describe Server"
  const errDeleteFailed := "cannot delete Server"

  /**
   * IsNotFound: the remote API answers 400 Bad Request for an unknown
   * server group, so a GetServerGroupUsingGET1BadRequest anywhere in the
   * wrap chain, at whatever depth, means "not found"; nil and every
   * other error do not.
   */
  function IsNotFound(err: Option<Error>): (r: bool)
    ensures err.None? ==> !r
    ensures err.Some? ==> (r <==> Cause(err.value).kind == GetServerGroupBadRequest)
  {
    err.Some? && (AsIsCauseKind(err.value, GetServerGroupBadRequest); As(err.value, GetServerGroupBadRequest))
  }

  /** models.ServerGroup as a describe returns it, reduced to the fields the controller reads. */
  datatype ServerGroupResource = ServerGroupResource(
    configSpace: string,
    creationTime: string,
    description: string,
    dynamicDiscovery: bool,
    enabled: bool,
    id: string,
    ipAnchored: bool,
    modifiedBy: string,
    modifiedTime: string,
    name: string,
    appConnectorGroups: seq<AppConnectorGroup>)

  /** models.AppConnectorGroup as a request carries it. */
  datatype AppConnectorGroup = AppConnectorGroup(name: string, id: string)

  /** models.ServerGroupDTO: the server group a create or update request carries. */
  datatype ServerGroupDTO = ServerGroupDTO(
    name: string,
    configSpace: string,
    description: string,
    enabled: bool,
    dynamicDiscovery: bool,
    ipAnchored: bool,
    appConnectorGroups: seq<AppConnectorGroup>)

  /** The requests the external client sends to the server-group API. */
  datatype Call =
    | GetServerGroup(customerID: string, groupID: string)
    | AddServerGroup(customerID: string, group: ServerGroupDTO)
    | UpdateServerGroup(customerID: string, groupID: string, group: ServerGroupDTO)
    | DeleteServerGroup(customerID: string, groupID: string)

  /**
   * The remote API as the external client sees it, for each tenant: the
   * server group with an ID, the name of the app connector group with an
   * ID, and the answers to an add (the new ID), an update and a delete.
   */
  datatype Api = Api(
    getServerGroup: (string, string) -> Result<ServerGroupResource, Error>,
    connectorGroupName: (string, string) -> Result<string, Error>,
    addServerGroup: (string, ServerGroupDTO) -> Result<string, Error>,
    updateServerGroup: (string, string, ServerGroupDTO) -> Option<Error>,
    deleteServerGroup: (string, string) -> Option<Error>)

  /**
   * The app-connector-group list of a create or update request: one
   * {name, ID} entry per ID, in order, or the first failed name lookup
   * wrapped in context (which differs between create and update).
   */
  function ConnectorGroupEntries(api: Api, customerID: string, ids: seq<string>, context: string)
    : (r: Result<seq<AppConnectorGroup>, Error>)
    ensures r.Success? <==> forall i | 0 <= i < |ids| :: api.connectorGroupName(customerID, ids[i]).Success?
    ensures r.Success? ==> |r.value| == |ids|
    ensures r.Success? ==> forall i | 0 <= i < |ids| ::
      r.value[i] == AppConnectorGroup(api.connectorGroupName(customerID, ids[i]).value, ids[i])
    ensures r.Failure? ==> exists i | 0 <= i < |ids| ::
      && (forall j | 0 <= j < i :: api.connectorGroupName(customerID, ids[j]).Success?)
      && api.connectorGroupName(customerID, ids[i]).Failure?
      && r.error == Wrapped(context, api.connectorGroupName(customerID, ids[i]).error)
  {
    if ids == [] then Success([])
    else
      var head := api.connectorGroupName(customerID, ids[0]);
      if head.Failure? then Failure(Wrapped(context, head.error))
      else
        var tail := ConnectorGroupEntries(api, customerID, ids[1..], context);
        assert forall i | 1 <= i < |ids| :: ids[i] == ids[1..][i - 1];
        if tail.Failure? then
          var k :| 0 <= k < |ids[1..]|
            && (forall j | 0 <= j < k :: api.connectorGroupName(customerID, ids[1..][j]).Success?)
            && api.connectorGroupName(customerID, ids[1..][k]).Failure?
            && tail.error == Wrapped(context, api.connectorGroupName(customerID, ids[1..][k]).error);
          assert forall j | 0 <= j < k + 1 :: api.connectorGroupName(customerID, ids[j]).Success?;
          tail
        else
          Success([AppConnectorGroup(head.value, ids[0])] + tail.value)
  }

  /** When the lookup of ids[i] is the first to fail, the list is that lookup's wrapped error. */
  lemma FirstFailureIsUnique(api: Api, customerID: string, ids: seq<string>, context: string, i: int)
    requires 0 <= i < |ids|
    requires forall j | 0 <= j < i :: api.connectorGroupName(customerID, ids[j]).Success?
    requires api.connectorGroupName(customerID, ids[i]).Failure?
    ensures ConnectorGroupEntries(api, customerID, ids, context)
         == Failure(Wrapped(context, api.connectorGroupName(customerID, ids[i]).error))
  {
    var r := ConnectorGroupEntries(api, customerID, ids, context);
    var k :| 0 <= k < |ids|
      && (forall j | 0 <= j < k :: api.connectorGroupName(customerID, ids[j]).Success?)
      && api.connectorGroupName(customerID, ids[k]).Failure?
      && r.error == Wrapped(context, api.connectorGroupName(customerID, ids[k]).error);
  }

  /**
   * The server group a create or update request carries for the given
   * parameters and connector groups: the spec's name, ConfigSpace,
   * Description and DynamicDiscovery, Enabled and IPAnchored with unset sent
   * as false, and the connector groups as looked up.
   */
  function Payload(p: ServerGroupParameters, groups: seq<AppConnectorGroup>): (r: ServerGroupDTO)
    ensures r.name == p.name && r.configSpace == p.configSpace && r.description == p.description
    ensures r.dynamicDiscovery == p.dynamicDiscovery
    ensures (r.enabled <==> p.enabled == Some(true)) && (r.ipAnchored <==> p.ipAnchored == Some(true))
    ensures r.appConnectorGroups == groups
  {
    ServerGroupDTO(
      name := p.name,
      configSpace := p.configSpace,
      description := p.description,
      enabled := BoolValue(p.enabled),
      dynamicDiscovery := p.dynamicDiscovery,
      ipAnchored := BoolValue(p.ipAnchored),
      appConnectorGroups := groups)
  }

  /**
   * The parameters after LateInitialize: ConfigSpace is taken from the
   * remote group when unset here and set there, IPAnchored when unset here;
   * nothing else changes.
   */
  function LateInit(p: ServerGroupParameters, obj: ServerGroupResource): (q: ServerGroupParameters)
    ensures q == p.(configSpace := q.configSpace, ipAnchored := q.ipAnchored)
    ensures q.ipAnchored.Some?
    ensures p.ipAnchored.Some? ==> q.ipAnchored == p.ipAnchored
    ensures p.ipAnchored.None? ==> q.ipAnchored == Some(obj.ipAnchored)
    ensures q.configSpace == (if p.configSpace == "" && obj.configSpace != "" then obj.configSpace else p.configSpace)
    ensures q.configSpace == "" <==> p.configSpace == "" && obj.configSpace == ""
  {
    p.(configSpace := if p.configSpace == "" && obj.configSpace != "" then obj.configSpace else p.configSpace,
       ipAnchored := if p.ipAnchored.None? && Bool(obj.ipAnchored).Some? then Bool(obj.ipAnchored) else p.ipAnchored)
  }

  /** Late initialisation from the same remote group a second time changes nothing. */
  lemma LateInitIdempotent(p: ServerGroupParameters, obj: ServerGroupResource)
    ensures LateInit(LateInit(p, obj), obj) == LateInit(p, obj)
  {
  }

  /** Late initialisation from a remote ConfigSpace the schema admits keeps the parameters valid. */
  lemma LateInitPreservesValidity(p: ServerGroupParameters, obj: ServerGroupResource)
    requires Valid(p) && ValidConfigSpace(obj.configSpace)
    ensures Valid(LateInit(p, obj))
  {
  }

  /**
   * isUpToDate: Description and ConfigSpace compare equal (empty and unset
   * alike), IPAnchored compares with unset read as false, and
   * DynamicDiscovery compares as a plain bool.
   */
  predicate IsUpToDate(p: ServerGroupParameters, obj: ServerGroupResource) {
    && IsEqualString(StringToPtr(p.description), StringToPtr(obj.description))
    && IsEqualString(StringToPtr(p.configSpace), StringToPtr(obj.configSpace))
    && IsEqualBool(p.ipAnchored, Bool(obj.ipAnchored))
    && IsEqualBool(Bool(p.dynamicDiscovery), Bool(obj.dynamicDiscovery))
  }

  /** The four fields isUpToDate compares, as plain values. */
  datatype Comparable = Comparable(description: string, configSpace: string, ipAnchored: bool, dynamicDiscovery: bool)

  function DesiredView(p: ServerGroupParameters): Comparable {
    Comparable(p.description, p.configSpace, BoolValue(p.ipAnchored), p.dynamicDiscovery)
  }

  function ObservedView(obj: ServerGroupResource): Comparable {
    Comparable(obj.description, obj.configSpace, obj.ipAnchored, obj.dynamicDiscovery)
  }

  /** The resource is up to date exactly when the four compared fields agree as values. */
  lemma UpToDateIffViewsAgree(p: ServerGroupParameters, obj: ServerGroupResource)
    ensures IsUpToDate(p, obj) <==> DesiredView(p) == ObservedView(obj)
  {
    StringToPtrComparison(p.description, obj.description);
    StringToPtrComparison(p.configSpace, obj.configSpace);
  }

  /** The name, Enabled and the app connector groups never affect the result, on either side. */
  lemma UpToDateIgnoresNameEnabledAndConnectors(p: ServerGroupParameters, obj: ServerGroupResource,
                                               name: string, enabled: Option<bool>, appConnectorGroups: seq<string>,
                                               remoteName: string, remoteEnabled: bool,
                                               remoteConnectorGroups: seq<AppConnectorGroup>)
    ensures IsUpToDate(p.(name := name, enabled := enabled, appConnectorGroups := appConnectorGroups),
                       obj.(name := remoteName, enabled := remoteEnabled, appConnectorGroups := remoteConnectorGroups))
        == IsUpToDate(p, obj)
  {
    UpToDateIffViewsAgree(p, obj);
    UpToDateIffViewsAgree(p.(name := name, enabled := enabled, appConnectorGroups := appConnectorGroups),
                          obj.(name := remoteName, enabled := remoteEnabled, appConnectorGroups := remoteConnectorGroups));
  }

  /** A remote group that stores what Create or Update sent is up to date. */
  lemma StoredPayloadIsUpToDate(p: ServerGroupParameters, groups: seq<AppConnectorGroup>, obj: ServerGroupResource)
    requires var dto := Payload(p, groups);
      obj.description == dto.description && obj.configSpace == dto.configSpace
      && obj.ipAnchored == dto.ipAnchored && obj.dynamicDiscovery == dto.dynamicDiscovery
    ensures IsUpToDate(p, obj)
  {
    UpToDateIffViewsAgree(p, obj);
  }

  /** Late initialisation never turns an up-to-date resource stale. */
  lemma LateInitKeepsUpToDate(p: ServerGroupParameters, obj: ServerGroupResource)
    requires IsUpToDate(p, obj)
    ensures IsUpToDate(LateInit(p, obj), obj)
  {
    UpToDateIffViewsAgree(p, obj);
    UpToDateIffViewsAgree(LateInit(p, obj), obj);
  }

  /** generateObservation: the remote ID and timestamps. */
  function GenerateObservation(obj: ServerGroupResource): (o: Observation)
    ensures o.id == obj.id && o.creationTime == obj.creationTime
    ensures o.modifiedBy == obj.modifiedBy && o.modifiedTime == obj.modifiedTime
  {
    Observation(obj.creationTime, obj.modifiedBy, obj.modifiedTime, obj.id)
  }

  /** The observation depends on the remote ID and timestamps and on nothing else. */
  lemma ObservationOnlyCopiesMetadata(a: ServerGroupResource, b: ServerGroupResource)
    ensures GenerateObservation(a) == GenerateObservation(b)
        <==> a.id == b.id && a.creationTime == b.creationTime
             && a.modifiedBy == b.modifiedBy && a.modifiedTime == b.modifiedTime
  {
  }

  /** LateInitialize: fills ConfigSpace and IPAnchored in place. */
  method LateInitialize(cr: ServerGroup, obj: ServerGroupResource)
    modifies cr
    ensures cr.forProvider == LateInit(old(cr.forProvider), obj)
    ensures cr.atProvider == old(cr.atProvider) && cr.available == old(cr.available)
    ensures cr.externalName == old(cr.externalName)
  {
    if cr.forProvider.configSpace == "" && obj.configSpace != "" {
      cr.forProvider := cr.forProvider.(configSpace := obj.configSpace);
    }
    if cr.forProvider.ipAnchored.None? && Bool(obj.ipAnchored).Some? {
      cr.forProvider := cr.forProvider.(ipAnchored := Bool(obj.ipAnchored));
    }
  }

  /** The external client: the remote API, the tenant it acts for, and the requests it has sent. */
  class External {
    const api: Api
    const customerID: string
    var calls: seq<Call>

    constructor(api: Api, customerID: string)
      ensures this.api == api && this.customerID == customerID && calls == []
    {
      this.api := api;
      this.customerID := customerID;
      calls := [];
    }

    /** The loop of Create and Update that looks up each connector group's name and appends its entry. */
    method ConnectorGroupPayload(ids: seq<string>, context: string) returns (r: Result<seq<AppConnectorGroup>, Error>)
      ensures r == ConnectorGroupEntries(api, customerID, ids, context)
    {
      var groups: seq<AppConnectorGroup> := [];
      for i := 0 to |ids|
        invariant |groups| == i
        invariant forall j | 0 <= j < i :: api.connectorGroupName(customerID, ids[j]).Success?
        invariant forall j | 0 <= j < i :: groups[j] == AppConnectorGroup(api.connectorGroupName(customerID, ids[j]).value, ids[j])
      {
        var rsp := api.connectorGroupName(customerID, ids[i]);
        if rsp.Failure? {
          r := Failure(Wrapped(context, rsp.error));
          FirstFailureIsUnique(api, customerID, ids, context, i);
          return;
        }
        groups := groups + [AppConnectorGroup(rsp.value, ids[i])];
      }
      r := Success(groups);
      assert groups == ConnectorGroupEntries(api, customerID, ids, context).value;
    }

    /**
     * Observe: without an external name the resource does not exist and
     * nothing is asked; a failed describe leaves the resource untouched and
     * reports not-found as absence; otherwise the observation is recorded,
     * the spec is late-initialised, the resource becomes available, and it
     * is up to date when the late-initialised spec matches.
     */
    method Observe(cr: ServerGroup) returns (o: ExternalObservation, err: Option<Error>)
      modifies this, cr
      ensures old(cr.externalName) == "" ==>
        && o == ExternalObservation(false, false, false) && err.None? && calls == old(calls)
        && cr.forProvider == old(cr.forProvider) && cr.atProvider == old(cr.atProvider)
        && cr.available == old(cr.available)
      ensures old(cr.externalName) != "" ==> calls == old(calls) + [GetServerGroup(customerID, old(cr.externalName))]
      ensures var rsp := api.getServerGroup(customerID, old(cr.externalName));
        old(cr.externalName) != "" && rsp.Failure? ==>
        && o == ExternalObservation(false, false, false)
        && (err.None? <==> IsNotFound(Some(rsp.error)))
        && (err.Some? ==> err.value == Wrapped(errDescribeFailed, rsp.error))
        && cr.forProvider == old(cr.forProvider) && cr.atProvider == old(cr.atProvider)
        && cr.available == old(cr.available)
      ensures var rsp := api.getServerGroup(customerID, old(cr.externalName));
        old(cr.externalName) != "" && rsp.Success? ==>
        && err.None?
        && cr.atProvider == GenerateObservation(rsp.value)
        && cr.forProvider == LateInit(old(cr.forProvider), rsp.value)
        && cr.available
        && o == ExternalObservation(true, IsUpToDate(cr.forProvider, rsp.value), cr.forProvider != old(cr.forProvider))
      ensures cr.externalName == old(cr.externalName)
    {
      var id := cr.externalName;
      if id == "" {
        return ExternalObservation(false, false, false), None;
      }
      var rsp := api.getServerGroup(customerID, id);
      calls := calls + [GetServerGroup(customerID, id)];
      if rsp.Failure? {
        return ExternalObservation(false, false, false), Wrap(Ignore(IsNotFound, Some(rsp.error)), errDescribeFailed);
      }
      cr.atProvider := GenerateObservation(rsp.value);
      var currentSpec := cr.forProvider;
      LateInitialize(cr, rsp.value);
      cr.available := true;
      o := ExternalObservation(true, IsUpToDate(cr.forProvider, rsp.value), cr.forProvider != currentSpec);
      err := None;
    }

    /**
     * Create: resolve every connector group's name, then add the server
     * group; on success the returned ID becomes the external name. A failed
     * lookup sends nothing, and no failure touches the external name.
     */
    method Create(cr: ServerGroup) returns (creation: ExternalCreation, err: Option<Error>)
      modifies this, cr
      ensures var groups := ConnectorGroupEntries(api, customerID, cr.forProvider.appConnectorGroups, errCreateConnectorGroupNotFound);
        groups.Failure? ==>
        && creation == ExternalCreation(false) && err == Some(groups.error)
        && calls == old(calls) && cr.externalName == old(cr.externalName)
      ensures var groups := ConnectorGroupEntries(api, customerID, cr.forProvider.appConnectorGroups, errCreateConnectorGroupNotFound);
        groups.Success? ==>
        var dto := Payload(cr.forProvider, groups.value);
        var rsp := api.addServerGroup(customerID, dto);
        && calls == old(calls) + [AddServerGroup(customerID, dto)]
        && (rsp.Failure? ==> creation == ExternalCreation(false) && err == Some(Wrapped(errCreateFailed, rsp.error))
                             && cr.externalName == old(cr.externalName))
        && (rsp.Success? ==> creation == ExternalCreation(true) && err.None? && cr.externalName == rsp.value)
      ensures cr.forProvider == old(cr.forProvider) && cr.atProvider == old(cr.atProvider)
      ensures cr.available == old(cr.available)
    {
      var groups := ConnectorGroupPayload(cr.forProvider.appConnectorGroups, errCreateConnectorGroupNotFound);
      if groups.Failure? {
        return ExternalCreation(false), Some(groups.error);
      }
      var dto := Payload(cr.forProvider, groups.value);
      var rsp := api.addServerGroup(customerID, dto);
      calls := calls + [AddServerGroup(customerID, dto)];
      if rsp.Failure? {
        return ExternalCreation(false), Some(Wrapped(errCreateFailed, rsp.error));
      }
      cr.externalName := rsp.value;
      creation, err := ExternalCreation(true), None;
    }

    /**
     * Update: resolve every connector group's name, then update the server
     * group with the external name as its ID; a failed lookup sends nothing.
     */
    method Update(cr: ServerGroup) returns (err: Option<Error>)
      modifies this
      ensures var groups := ConnectorGroupEntries(api, customerID, cr.forProvider.appConnectorGroups, errUpdateConnectorGroupNotFound);
        groups.Failure? ==> err == Some(groups.error) && calls == old(calls)
      ensures var groups := ConnectorGroupEntries(api, customerID, cr.forProvider.appConnectorGroups, errUpdateConnectorGroupNotFound);
        groups.Success? ==>
        var dto := Payload(cr.forProvider, groups.value);
        && calls == old(calls) + [UpdateServerGroup(customerID, cr.externalName, dto)]
        && err == Wrap(api.updateServerGroup(customerID, cr.externalName, dto), errUpdateFailed)
    {
      var groups := ConnectorGroupPayload(cr.forProvider.appConnectorGroups, errUpdateConnectorGroupNotFound);
      if groups.Failure? {
        return Some(groups.error);
      }
      var dto := Payload(cr.forProvider, groups.value);
      var rspErr := api.updateServerGroup(customerID, cr.externalName, dto);
      calls := calls + [UpdateServerGroup(customerID, cr.externalName, dto)];
      err := Wrap(rspErr, errUpdateFailed);
    }

    /** Delete: without an external name it fails and sends nothing; otherwise it deletes that ID. */
    method Delete(cr: ServerGroup) returns (err: Option<Error>)
      modifies this
      ensures cr.externalName == "" ==> err == Some(New(errNotServer)) && calls == old(calls)
      ensures cr.externalName != "" ==>
        && calls == old(calls) + [DeleteServerGroup(customerID, cr.externalName)]
        && err == Wrap(api.deleteServerGroup(customerID, cr.externalName), errDeleteFailed)
    {
      var id := cr.externalName;
      if id == "" {
        return Some(New(errNotServer));
      }
      var rspErr := api.deleteServerGroup(customerID, id);
      calls := calls + [DeleteServerGroup(customerID, id)];
      err := Wrap(rspErr, errDeleteFailed);
    }
  }

  /**
   * Create and Update report the same failed connector-group lookup, under
   * different messages.
   */
  lemma LookupErrorsDistinguishCreateFromUpdate(api: Api, customerID: string, ids: seq<string>)
    requires ConnectorGroupEntries(api, customerID, ids, errCreateConnectorGroupNotFound).Failure?
    ensures ConnectorGroupEntries(api, customerID, ids, errUpdateConnectorGroupNotFound).Failure?
    ensures var c, u := ConnectorGroupEntries(api, customerID, ids, errCreateConnectorGroupNotFound).error,
                        ConnectorGroupEntries(api, customerID, ids, errUpdateConnectorGroupNotFound).error;
      && c.Wrapped? && u.Wrapped? && c.cause == u.cause
      && c.context == errCreateConnectorGroupNotFound && u.context == errUpdateConnectorGroupNotFound
      && c != u
  {
    var c := ConnectorGroupEntries(api, customerID, ids, errCreateConnectorGroupNotFound);
    var i :| 0 <= i < |ids|
      && (forall j | 0 <= j < i :: api.connectorGroupName(customerID, ids[j]).Success?)
      && api.connectorGroupName(customerID, ids[i]).Failure?
      && c.error == Wrapped(errCreateConnectorGroupNotFound, api.connectorGroupName(customerID, ids[i]).error);
    FirstFailureIsUnique(api, customerID, ids, errUpdateConnectorGroupNotFound, i);
    assert errCreateConnectorGroupNotFound[34] != errUpdateConnectorGroupNotFound[34];
  }
}
