/**
 * The external client of the ApplicationSegment kind
 * (pkg/controller/applicationsegment): Observe, Create, Update, Delete and
 * LateInitialize against the remote application API, together with the
 * pure parts they use (the observation, the up-to-date check, the request
 * payload) and the not-found classifier.
 */
module ApplicationSegmentController {
  import opened Wrappers
  import opened Errors
  import opened Runtime
  import opened ClientHelpers
  import opened ApplicationSegmentTypes

  const errNotApplicationSegment := "managed resource is not an ApplicationSegment custom resource"
  const errCreateFailed := "cannot create ApplicationSegment"
  const errDescribeFailed := "cannot describe ApplicationSegment"
  const errUpdateFailed := "cannot update ApplicationSegment"
  const errDeleteFailed := "cannot delete ApplicationSegment"
  const errServerGroupNotFound := "cannot get ServerGroup"

  /**
   * IsNotFound: the remote API answers 400 Bad Request for an unknown
   * application, so a GetApplicationUsingGET1BadRequest anywhere in the
   * wrap chain, at whatever depth, means "not found"; nil and every
   * other error do not.
   */
  function IsNotFound(err: Option<Error>): (r: bool)
    ensures err.None? ==> !r
    ensures err.Some? ==> (r <==> Cause(err.value).kind == GetApplicationBadRequest)
  {
    err.Some? && (AsIsCauseKind(err.value, GetApplicationBadRequest); As(err.value, GetApplicationBadRequest))
  }

  /** models.ApplicationResource: the application as the remote API sends and receives it. */
  datatype ApplicationResource = ApplicationResource(
    bypassType: string,
    configSpace: string,
    creationTime: string,
    defaultIdleTimeout: string,
    defaultMaxAge: string,
    description: string,
    domainNames: seq<string>,
    doubleEncrypt: bool,
    enabled: bool,
    healthCheckType: string,
    healthReporting: string,
    icmpAccessType: string,
    id: string,
    ipAnchored: bool,
    isCnameEnabled: bool,
    modifiedBy: string,
    modifiedTime: string,
    name: string,
    passiveHealthEnabled: bool,
    segmentGroupID: string,
    serverGroups: seq<AppServerGroup>,
    tcpPortRanges: seq<string>,
    udpPortRanges: seq<string>)

  /** The requests the external client sends to the application API. */
  datatype Call =
    | GetApplication(customerID: string, applicationID: string)
    | AddApplication(customerID: string, application: ApplicationResource)
    | UpdateApplication(customerID: string, applicationID: string, application: ApplicationResource)
    | DeleteApplication(customerID: string, applicationID: string, forceDelete: Option<bool>)

  /**
   * The remote API as the external client sees it, for each tenant: the
   * application with an ID, the name of the server group with an ID, and
   * the answers to an add (the new ID), an update and a delete.
   */
  datatype Api = Api(
    getApplication: (string, string) -> Result<ApplicationResource, Error>,
    serverGroupName: (string, string) -> Result<string, Error>,
    addApplication: (string, ApplicationResource) -> Result<string, Error>,
    updateApplication: (string, string, ApplicationResource) -> Option<Error>,
    deleteApplication: (string, string) -> Option<Error>)

  /** The server-group entry of a request: the ID and the looked-up name, every other field empty. */
  function ServerGroupEntry(id: string, name: string): AppServerGroup {
    AppServerGroup("", "", "", false, false, id, "", "", String(name))
  }

  /**
   * The server-group list of a create or update request: one entry per ID,
   * in order, or the first failed name lookup.
   */
  function ServerGroupEntries(api: Api, customerID: string, ids: seq<string>): (r: Result<seq<AppServerGroup>, Error>)
    ensures r.Success? <==> forall i | 0 <= i < |ids| :: api.serverGroupName(customerID, ids[i]).Success?
    ensures r.Success? ==> |r.value| == |ids|
    ensures r.Success? ==> forall i | 0 <= i < |ids| ::
      r.value[i] == ServerGroupEntry(ids[i], api.serverGroupName(customerID, ids[i]).value)
    ensures r.Failure? ==> exists i | 0 <= i < |ids| ::
      && (forall j | 0 <= j < i :: api.serverGroupName(customerID, ids[j]).Success?)
      && api.serverGroupName(customerID, ids[i]).Failure?
      && r.error == Wrapped(errServerGroupNotFound, api.serverGroupName(customerID, ids[i]).error)
  {
    if ids == [] then Success([])
    else
      var head := api.serverGroupName(customerID, ids[0]);
      if head.Failure? then Failure(Wrapped(errServerGroupNotFound, head.error))
      else
        var tail := ServerGroupEntries(api, customerID, ids[1..]);
        assert forall i | 1 <= i < |ids| :: ids[i] == ids[1..][i - 1];
        if tail.Failure? then
          var k :| 0 <= k < |ids[1..]|
            && (forall j | 0 <= j < k :: api.serverGroupName(customerID, ids[1..][j]).Success?)
            && api.serverGroupName(customerID, ids[1..][k]).Failure?
            && tail.error == Wrapped(errServerGroupNotFound, api.serverGroupName(customerID, ids[1..][k]).error);
          assert forall j | 0 <= j < k + 1 :: api.serverGroupName(customerID, ids[j]).Success?;
          tail
        else
          Success([ServerGroupEntry(ids[0], head.value)] + tail.value)
  }

  /** When the lookup of ids[i] is the first to fail, the list is that lookup's wrapped error. */
  lemma FirstFailureIsUnique(api: Api, customerID: string, ids: seq<string>, i: int)
    requires 0 <= i < |ids|
    requires forall j | 0 <= j < i :: api.serverGroupName(customerID, ids[j]).Success?
    requires api.serverGroupName(customerID, ids[i]).Failure?
    ensures ServerGroupEntries(api, customerID, ids) == Failure(Wrapped(errServerGroupNotFound, api.serverGroupName(customerID, ids[i]).error))
  {
    var r := ServerGroupEntries(api, customerID, ids);
    var k :| 0 <= k < |ids|
      && (forall j | 0 <= j < k :: api.serverGroupName(customerID, ids[j]).Success?)
      && api.serverGroupName(customerID, ids[k]).Failure?
      && r.error == Wrapped(errServerGroupNotFound, api.serverGroupName(customerID, ids[k]).error);
  }

  /**
   * The application a create or update request carries for the given
   * parameters and server groups: every field isUpToDate compares has the
   * spec's value (unset bools sent as false), the segment group ID is sent
   * as "" when unset, and the remote-assigned fields are empty.
   */
  function Payload(p: ApplicationSegmentParameters, serverGroups: seq<AppServerGroup>): (r: ApplicationResource)
    ensures ObservedView(r) == DesiredView(p)
    ensures r.segmentGroupID == StringValue(p.segmentGroupID) && r.serverGroups == serverGroups
    ensures r.id == "" && r.creationTime == "" && r.modifiedBy == "" && r.modifiedTime == ""
  {
    ApplicationResource(
      bypassType := p.bypassType,
      configSpace := p.configSpace,
      creationTime := "",
      defaultIdleTimeout := p.defaultIdleTimeout,
      defaultMaxAge := p.defaultMaxAge,
      description := p.description,
      domainNames := p.domainNames,
      doubleEncrypt := BoolValue(p.doubleEncrypt),
      enabled := BoolValue(p.enabled),
      healthCheckType := p.healthCheckType,
      healthReporting := p.healthReporting,
      icmpAccessType := p.icmpAccessType,
      id := "",
      ipAnchored := BoolValue(p.ipAnchored),
      isCnameEnabled := BoolValue(p.isCnameEnabled),
      modifiedBy := "",
      modifiedTime := "",
      name := p.name,
      passiveHealthEnabled := BoolValue(p.passiveHealthEnabled),
      segmentGroupID := StringValue(p.segmentGroupID),
      serverGroups := serverGroups,
      tcpPortRanges := p.tcpPortRanges,
      udpPortRanges := p.udpPortRanges)
  }

  /** A *bool field after late initialisation: kept when set, the remote value otherwise. */
  function FillBool(current: Option<bool>, remote: bool): Option<bool> {
    if current.None? then Bool(remote) else current
  }

  /** A string field after late initialisation: kept when non-empty, the remote value otherwise. */
  function FillString(current: string, remote: string): string {
    if current == "" then remote else current
  }

  /**
   * The parameters after LateInitialize: the five *bool fields and the five
   * enum strings are filled from the remote application where unset; every
   * other field, and every field already set, is kept.
   */
  function LateInit(p: ApplicationSegmentParameters, obj: ApplicationResource): (q: ApplicationSegmentParameters)
    ensures q == p.(enabled := q.enabled, passiveHealthEnabled := q.passiveHealthEnabled,
                    doubleEncrypt := q.doubleEncrypt, isCnameEnabled := q.isCnameEnabled,
                    ipAnchored := q.ipAnchored, configSpace := q.configSpace, bypassType := q.bypassType,
                    healthCheckType := q.healthCheckType, icmpAccessType := q.icmpAccessType,
                    healthReporting := q.healthReporting)
    ensures q.enabled.Some? && q.passiveHealthEnabled.Some? && q.doubleEncrypt.Some?
         && q.isCnameEnabled.Some? && q.ipAnchored.Some?
    ensures p.enabled.Some? ==> q.enabled == p.enabled
    ensures p.passiveHealthEnabled.Some? ==> q.passiveHealthEnabled == p.passiveHealthEnabled
    ensures p.doubleEncrypt.Some? ==> q.doubleEncrypt == p.doubleEncrypt
    ensures p.isCnameEnabled.Some? ==> q.isCnameEnabled == p.isCnameEnabled
    ensures p.ipAnchored.Some? ==> q.ipAnchored == p.ipAnchored
    ensures p.enabled.None? ==> q.enabled == Some(obj.enabled)
    ensures p.passiveHealthEnabled.None? ==> q.passiveHealthEnabled == Some(obj.passiveHealthEnabled)
    ensures p.doubleEncrypt.None? ==> q.doubleEncrypt == Some(obj.doubleEncrypt)
    ensures p.isCnameEnabled.None? ==> q.isCnameEnabled == Some(obj.isCnameEnabled)
    ensures p.ipAnchored.None? ==> q.ipAnchored == Some(obj.ipAnchored)
    ensures p.configSpace != "" ==> q.configSpace == p.configSpace
    ensures p.bypassType != "" ==> q.bypassType == p.bypassType
    ensures p.healthCheckType != "" ==> q.healthCheckType == p.healthCheckType
    ensures p.icmpAccessType != "" ==> q.icmpAccessType == p.icmpAccessType
    ensures p.healthReporting != "" ==> q.healthReporting == p.healthReporting
    ensures p.configSpace == "" ==> q.configSpace == obj.configSpace
    ensures p.bypassType == "" ==> q.bypassType == obj.bypassType
    ensures p.healthCheckType == "" ==> q.healthCheckType == obj.healthCheckType
    ensures p.icmpAccessType == "" ==> q.icmpAccessType == obj.icmpAccessType
    ensures p.healthReporting == "" ==> q.healthReporting == obj.healthReporting
  {
    p.(enabled := FillBool(p.enabled, obj.enabled),
       passiveHealthEnabled := FillBool(p.passiveHealthEnabled, obj.passiveHealthEnabled),
       doubleEncrypt := FillBool(p.doubleEncrypt, obj.doubleEncrypt),
       configSpace := FillString(p.configSpace, obj.configSpace),
       bypassType := FillString(p.bypassType, obj.bypassType),
       healthCheckType := FillString(p.healthCheckType, obj.healthCheckType),
       icmpAccessType := FillString(p.icmpAccessType, obj.icmpAccessType),
       isCnameEnabled := FillBool(p.isCnameEnabled, obj.isCnameEnabled),
       ipAnchored := FillBool(p.ipAnchored, obj.ipAnchored),
       healthReporting := FillString(p.healthReporting, obj.healthReporting))
  }

  /** Late initialisation from the same remote application a second time changes nothing. */
  lemma LateInitIdempotent(p: ApplicationSegmentParameters, obj: ApplicationResource)
    ensures LateInit(LateInit(p, obj), obj) == LateInit(p, obj)
  {
  }

  /** The remote values of the enum fields, read as parameters, are ones the schema admits. */
  predicate ValidRemote(obj: ApplicationResource) {
    && ValidBypassType(obj.bypassType)
    && ValidConfigSpace(obj.configSpace)
    && ValidHealthCheckType(obj.healthCheckType)
    && ValidHealthReporting(obj.healthReporting)
    && ValidIcmpAccessType(obj.icmpAccessType)
  }

  /** Late initialisation from remote values the schema admits keeps the parameters valid. */
  lemma LateInitPreservesValidity(p: ApplicationSegmentParameters, obj: ApplicationResource)
    requires Valid(p) && ValidRemote(obj)
    ensures Valid(LateInit(p, obj))
  {
  }

  /**
   * isUpToDate: the thirteen scalar fields and the name compare equal (an
   * empty string and an unset one alike, an unset bool as false), and the
   * domain names and port ranges hold the same elements in any order.
   */
  predicate IsUpToDate(p: ApplicationSegmentParameters, obj: ApplicationResource) {
    && IsEqualString(StringToPtr(p.bypassType), StringToPtr(obj.bypassType))
    && IsEqualString(StringToPtr(p.configSpace), StringToPtr(obj.configSpace))
    && IsEqualString(StringToPtr(p.defaultIdleTimeout), StringToPtr(obj.defaultIdleTimeout))
    && IsEqualString(StringToPtr(p.defaultMaxAge), StringToPtr(obj.defaultMaxAge))
    && IsEqualString(StringToPtr(p.description), StringToPtr(obj.description))
    && IsEqualBool(p.doubleEncrypt, Bool(obj.doubleEncrypt))
    && IsEqualBool(p.enabled, Bool(obj.enabled))
    && IsEqualString(StringToPtr(p.healthCheckType), StringToPtr(obj.healthCheckType))
    && IsEqualString(StringToPtr(p.healthReporting), StringToPtr(obj.healthReporting))
    && IsEqualBool(p.ipAnchored, Bool(obj.ipAnchored))
    && IsEqualString(StringToPtr(p.icmpAccessType), StringToPtr(obj.icmpAccessType))
    && IsEqualBool(p.isCnameEnabled, Bool(obj.isCnameEnabled))
    && IsEqualBool(p.passiveHealthEnabled, Bool(obj.passiveHealthEnabled))
    && IsEqualStringArrayContent(p.domainNames, obj.domainNames)
    && IsEqualStringArrayContent(p.tcpPortRanges, obj.tcpPortRanges)
    && IsEqualStringArrayContent(p.udpPortRanges, obj.udpPortRanges)
    && IsEqualString(StringToPtr(p.name), StringToPtr(obj.name))
  }

  /** The fields isUpToDate compares, as plain values: unset bools read false, lists as multisets. */
  datatype Comparable = Comparable(
    bypassType: string, configSpace: string, defaultIdleTimeout: string, defaultMaxAge: string,
    description: string, doubleEncrypt: bool, enabled: bool, healthCheckType: string,
    healthReporting: string, ipAnchored: bool, icmpAccessType: string, isCnameEnabled: bool,
    passiveHealthEnabled: bool, domainNames: multiset<string>, tcpPortRanges: multiset<string>,
    udpPortRanges: multiset<string>, name: string)

  function DesiredView(p: ApplicationSegmentParameters): Comparable {
    Comparable(p.bypassType, p.configSpace, p.defaultIdleTimeout, p.defaultMaxAge, p.description,
      BoolValue(p.doubleEncrypt), BoolValue(p.enabled), p.healthCheckType, p.healthReporting,
      BoolValue(p.ipAnchored), p.icmpAccessType, BoolValue(p.isCnameEnabled), BoolValue(p.passiveHealthEnabled),
      multiset(p.domainNames), multiset(p.tcpPortRanges), multiset(p.udpPortRanges), p.name)
  }

  function ObservedView(obj: ApplicationResource): Comparable {
    Comparable(obj.bypassType, obj.configSpace, obj.defaultIdleTimeout, obj.defaultMaxAge, obj.description,
      obj.doubleEncrypt, obj.enabled, obj.healthCheckType, obj.healthReporting,
      obj.ipAnchored, obj.icmpAccessType, obj.isCnameEnabled, obj.passiveHealthEnabled,
      multiset(obj.domainNames), multiset(obj.tcpPortRanges), multiset(obj.udpPortRanges), obj.name)
  }

  /** The resource is up to date exactly when the compared fields agree as values. */
  lemma UpToDateIffViewsAgree(p: ApplicationSegmentParameters, obj: ApplicationResource)
    ensures IsUpToDate(p, obj) <==> DesiredView(p) == ObservedView(obj)
  {
    StringToPtrComparison(p.bypassType, obj.bypassType);
    StringToPtrComparison(p.configSpace, obj.configSpace);
    StringToPtrComparison(p.defaultIdleTimeout, obj.defaultIdleTimeout);
    StringToPtrComparison(p.defaultMaxAge, obj.defaultMaxAge);
    StringToPtrComparison(p.description, obj.description);
    StringToPtrComparison(p.healthCheckType, obj.healthCheckType);
    StringToPtrComparison(p.healthReporting, obj.healthReporting);
    StringToPtrComparison(p.icmpAccessType, obj.icmpAccessType);
    StringToPtrComparison(p.name, obj.name);
  }

  /**
   * The segment group, the server groups and the reference fields never
   * affect the result, on either side.
   */
  lemma UpToDateIgnoresGroups(p: ApplicationSegmentParameters, obj: ApplicationResource,
                              segmentGroupID: Option<string>, serverGroups: seq<string>,
                              remoteSegmentGroupID: string, remoteServerGroups: seq<AppServerGroup>)
    ensures IsUpToDate(p.(segmentGroupID := segmentGroupID, serverGroups := serverGroups,
                          segmentGroupIDRef := None, segmentGroupIDSelector := None,
                          serverGroupRefs := [], serverGroupSelector := None),
                       obj.(segmentGroupID := remoteSegmentGroupID, serverGroups := remoteServerGroups))
        == IsUpToDate(p, obj)
  {
    UpToDateIffViewsAgree(p, obj);
    UpToDateIffViewsAgree(p.(segmentGroupID := segmentGroupID, serverGroups := serverGroups,
                             segmentGroupIDRef := None, segmentGroupIDSelector := None,
                             serverGroupRefs := [], serverGroupSelector := None),
                          obj.(segmentGroupID := remoteSegmentGroupID, serverGroups := remoteServerGroups));
  }

  /** Reordering the domain names or port ranges on the spec side never makes the resource stale. */
  lemma UpToDateIgnoresListOrder(p: ApplicationSegmentParameters, obj: ApplicationResource,
                                 domainNames: seq<string>, tcpPortRanges: seq<string>, udpPortRanges: seq<string>)
    requires multiset(domainNames) == multiset(p.domainNames)
    requires multiset(tcpPortRanges) == multiset(p.tcpPortRanges)
    requires multiset(udpPortRanges) == multiset(p.udpPortRanges)
    ensures IsUpToDate(p.(domainNames := domainNames, tcpPortRanges := tcpPortRanges, udpPortRanges := udpPortRanges), obj)
        == IsUpToDate(p, obj)
  {
    UpToDateIffViewsAgree(p, obj);
    UpToDateIffViewsAgree(p.(domainNames := domainNames, tcpPortRanges := tcpPortRanges, udpPortRanges := udpPortRanges), obj);
  }

  /** What Create or Update sends is up to date when the remote system reports it back unchanged. */
  lemma SentPayloadIsUpToDate(p: ApplicationSegmentParameters, serverGroups: seq<AppServerGroup>)
    ensures IsUpToDate(p, Payload(p, serverGroups))
  {
    UpToDateIffViewsAgree(p, Payload(p, serverGroups));
  }

  /** Late initialisation never turns an up-to-date resource stale. */
  lemma LateInitKeepsUpToDate(p: ApplicationSegmentParameters, obj: ApplicationResource)
    requires IsUpToDate(p, obj)
    ensures IsUpToDate(LateInit(p, obj), obj)
  {
    UpToDateIffViewsAgree(p, obj);
    UpToDateIffViewsAgree(LateInit(p, obj), obj);
  }

  /**
   * The observation generateObservation records: the remote ID and
   * timestamps, the server groups as listed, and ten of the parameters;
   * every other parameter stays at its zero value.
   */
  function ObservationOf(obj: ApplicationResource): (o: Observation)
    ensures o.id == obj.id && o.creationTime == obj.creationTime
    ensures o.modifiedBy == obj.modifiedBy && o.modifiedTime == obj.modifiedTime
    ensures o.serverGroup == obj.serverGroups
    ensures o.applicationSegment == EmptyParameters.(
      bypassType := obj.bypassType, configSpace := obj.configSpace,
      defaultIdleTimeout := obj.defaultIdleTimeout, defaultMaxAge := obj.defaultMaxAge,
      domainNames := obj.domainNames, doubleEncrypt := Some(obj.doubleEncrypt),
      enabled := Some(obj.enabled), healthCheckType := obj.healthCheckType,
      healthReporting := obj.healthReporting, ipAnchored := Some(obj.ipAnchored))
  {
    Observation(obj.creationTime, obj.modifiedBy, obj.modifiedTime, obj.id, obj.serverGroups,
      EmptyParameters.(
        bypassType := obj.bypassType, configSpace := obj.configSpace,
        defaultIdleTimeout := obj.defaultIdleTimeout, defaultMaxAge := obj.defaultMaxAge,
        domainNames := obj.domainNames, doubleEncrypt := Bool(obj.doubleEncrypt),
        enabled := Bool(obj.enabled), healthCheckType := obj.healthCheckType,
        healthReporting := obj.healthReporting, ipAnchored := Bool(obj.ipAnchored)))
  }

  /**
   * The observation does not depend on the remote name, description,
   * ICMP access type, CNAME and passive-health flags, segment group or
   * port ranges.
   */
  lemma ObservationOmitsFields(obj: ApplicationResource, other: ApplicationResource)
    requires other == obj.(name := other.name, description := other.description,
                           icmpAccessType := other.icmpAccessType, isCnameEnabled := other.isCnameEnabled,
                           passiveHealthEnabled := other.passiveHealthEnabled,
                           segmentGroupID := other.segmentGroupID,
                           tcpPortRanges := other.tcpPortRanges, udpPortRanges := other.udpPortRanges)
    ensures ObservationOf(other) == ObservationOf(obj)
  {
  }

  /** generateObservation, with its append loop over the server groups. */
  method GenerateObservation(obj: ApplicationResource) returns (o: Observation)
    ensures o == ObservationOf(obj)
  {
    var groups: seq<AppServerGroup> := [];
    for i := 0 to |obj.serverGroups|
      invariant groups == obj.serverGroups[..i]
    {
      groups := groups + [obj.serverGroups[i]];
    }
    var params := EmptyParameters;
    params := params.(bypassType := obj.bypassType, configSpace := obj.configSpace);
    params := params.(defaultIdleTimeout := obj.defaultIdleTimeout, defaultMaxAge := obj.defaultMaxAge);
    params := params.(domainNames := [] + obj.domainNames);
    params := params.(doubleEncrypt := Bool(obj.doubleEncrypt), enabled := Bool(obj.enabled));
    params := params.(healthCheckType := obj.healthCheckType, healthReporting := obj.healthReporting);
    params := params.(ipAnchored := Bool(obj.ipAnchored));
    o := Observation(obj.creationTime, obj.modifiedBy, obj.modifiedTime, obj.id, groups, params);
  }

  /** LateInitialize: fills the unset fields of the spec in place, one field at a time. */
  method LateInitialize(cr: ApplicationSegment, obj: ApplicationResource)
    modifies cr
    ensures cr.forProvider == LateInit(old(cr.forProvider), obj)
    ensures cr.atProvider == old(cr.atProvider) && cr.available == old(cr.available)
    ensures cr.externalName == old(cr.externalName)
  {
    cr.forProvider := cr.forProvider.(enabled := FillBool(cr.forProvider.enabled, obj.enabled));
    cr.forProvider := cr.forProvider.(passiveHealthEnabled := FillBool(cr.forProvider.passiveHealthEnabled, obj.passiveHealthEnabled));
    cr.forProvider := cr.forProvider.(doubleEncrypt := FillBool(cr.forProvider.doubleEncrypt, obj.doubleEncrypt));
    cr.forProvider := cr.forProvider.(configSpace := FillString(cr.forProvider.configSpace, obj.configSpace));
    cr.forProvider := cr.forProvider.(bypassType := FillString(cr.forProvider.bypassType, obj.bypassType));
    cr.forProvider := cr.forProvider.(healthCheckType := FillString(cr.forProvider.healthCheckType, obj.healthCheckType));
    cr.forProvider := cr.forProvider.(icmpAccessType := FillString(cr.forProvider.icmpAccessType, obj.icmpAccessType));
    cr.forProvider := cr.forProvider.(isCnameEnabled := FillBool(cr.forProvider.isCnameEnabled, obj.isCnameEnabled));
    cr.forProvider := cr.forProvider.(ipAnchored := FillBool(cr.forProvider.ipAnchored, obj.ipAnchored));
    cr.forProvider := cr.forProvider.(healthReporting := FillString(cr.forProvider.healthReporting, obj.healthReporting));
  }

  /** The external client: the remote API, the tenant it acts for, and the requests it has sent. */
  class External {
    const api: Api
    const customerID: string
    var calls: seq<Call>

    constructor(api: Api, customerID: string)
      ensures this.api == api && this.customerID == customerID && calls == []
    {
      this.api := api;
      this.customerID := customerID;
      calls := [];
    }

    /** The loop of Create and Update that looks up each server group's name and appends its entry. */
    method ServerGroupPayload(ids: seq<string>) returns (r: Result<seq<AppServerGroup>, Error>)
      ensures r == ServerGroupEntries(api, customerID, ids)
    {
      var entries: seq<AppServerGroup> := [];
      for i := 0 to |ids|
        invariant |entries| == i
        invariant forall j | 0 <= j < i :: api.serverGroupName(customerID, ids[j]).Success?
        invariant forall j | 0 <= j < i :: entries[j] == ServerGroupEntry(ids[j], api.serverGroupName(customerID, ids[j]).value)
      {
        var rsp := api.serverGroupName(customerID, ids[i]);
        if rsp.Failure? {
          r := Failure(Wrapped(errServerGroupNotFound, rsp.error));
          FirstFailureIsUnique(api, customerID, ids, i);
          return;
        }
        entries := entries + [ServerGroupEntry(ids[i], rsp.value)];
      }
      r := Success(entries);
      assert entries == ServerGroupEntries(api, customerID, ids).value;
    }

    /**
     * Observe: without an external name the resource does not exist and
     * nothing is asked; a failed describe leaves the resource untouched and
     * reports not-found as absence; otherwise the observation is recorded,
     * the spec is late-initialised, the resource becomes available, and it
     * is up to date when the late-initialised spec matches.
     */
    method Observe(cr: ApplicationSegment) returns (o: ExternalObservation, err: Option<Error>)
      modifies this, cr
      ensures old(cr.externalName) == "" ==>
        && o == ExternalObservation(false, false, false) && err.None? && calls == old(calls)
        && cr.forProvider == old(cr.forProvider) && cr.atProvider == old(cr.atProvider)
        && cr.available == old(cr.available)
      ensures old(cr.externalName) != "" ==> calls == old(calls) + [GetApplication(customerID, old(cr.externalName))]
      ensures var rsp := api.getApplication(customerID, old(cr.externalName));
        old(cr.externalName) != "" && rsp.Failure? ==>
        && o == ExternalObservation(false, false, false)
        && (err.None? <==> IsNotFound(Some(rsp.error)))
        && (err.Some? ==> err.value == Wrapped(errDescribeFailed, rsp.error))
        && cr.forProvider == old(cr.forProvider) && cr.atProvider == old(cr.atProvider)
        && cr.available == old(cr.available)
      ensures var rsp := api.getApplication(customerID, old(cr.externalName));
        old(cr.externalName) != "" && rsp.Success? ==>
        && err.None?
        && cr.atProvider == ObservationOf(rsp.value)
        && cr.forProvider == LateInit(old(cr.forProvider), rsp.value)
        && cr.available
        && o == ExternalObservation(true, IsUpToDate(cr.forProvider, rsp.value), cr.forProvider != old(cr.forProvider))
      ensures cr.externalName == old(cr.externalName)
    {
      var id := cr.externalName;
      if id == "" {
        return ExternalObservation(false, false, false), None;
      }
      var rsp := api.getApplication(customerID, id);
      calls := calls + [GetApplication(customerID, id)];
      if rsp.Failure? {
        return ExternalObservation(false, false, false), Wrap(Ignore(IsNotFound, Some(rsp.error)), errDescribeFailed);
      }
      cr.atProvider := GenerateObservation(rsp.value);
      var currentSpec := cr.forProvider;
      LateInitialize(cr, rsp.value);
      cr.available := true;
      o := ExternalObservation(true, IsUpToDate(cr.forProvider, rsp.value), cr.forProvider != currentSpec);
      err := None;
    }

    /**
     * Create: resolve every server group's name, then add the application;
     * on success the returned ID becomes the external name. A failed lookup
     * sends nothing, and no failure touches the external name.
     */
    method Create(cr: ApplicationSegment) returns (creation: ExternalCreation, err: Option<Error>)
      modifies this, cr
      ensures var entries := ServerGroupEntries(api, customerID, cr.forProvider.serverGroups);
        entries.Failure? ==>
        && creation == ExternalCreation(false) && err == Some(entries.error)
        && calls == old(calls) && cr.externalName == old(cr.externalName)
      ensures var entries := ServerGroupEntries(api, customerID, cr.forProvider.serverGroups);
        entries.Success? ==>
        var app := Payload(cr.forProvider, entries.value);
        var rsp := api.addApplication(customerID, app);
        && calls == old(calls) + [AddApplication(customerID, app)]
        && (rsp.Failure? ==> creation == ExternalCreation(false) && err == Some(Wrapped(errCreateFailed, rsp.error))
                             && cr.externalName == old(cr.externalName))
        && (rsp.Success? ==> creation == ExternalCreation(true) && err.None? && cr.externalName == rsp.value)
      ensures cr.forProvider == old(cr.forProvider) && cr.atProvider == old(cr.atProvider)
      ensures cr.available == old(cr.available)
    {
      var entries := ServerGroupPayload(cr.forProvider.serverGroups);
      if entries.Failure? {
        return ExternalCreation(false), Some(entries.error);
      }
      var app := Payload(cr.forProvider, entries.value);
      var rsp := api.addApplication(customerID, app);
      calls := calls + [AddApplication(customerID, app)];
      if rsp.Failure? {
        return ExternalCreation(false), Some(Wrapped(errCreateFailed, rsp.error));
      }
      cr.externalName := rsp.value;
      creation, err := ExternalCreation(true), None;
    }

    /**
     * Update: resolve every server group's name, then update the
     * application with the external name as its ID; a failed lookup sends
     * nothing.
     */
    method Update(cr: ApplicationSegment) returns (err: Option<Error>)
      modifies this
      ensures var entries := ServerGroupEntries(api, customerID, cr.forProvider.serverGroups);
        entries.Failure? ==> err == Some(entries.error) && calls == old(calls)
      ensures var entries := ServerGroupEntries(api, customerID, cr.forProvider.serverGroups);
        entries.Success? ==>
        var app := Payload(cr.forProvider, entries.value);
        && calls == old(calls) + [UpdateApplication(customerID, cr.externalName, app)]
        && err == Wrap(api.updateApplication(customerID, cr.externalName, app), errUpdateFailed)
    {
      var entries := ServerGroupPayload(cr.forProvider.serverGroups);
      if entries.Failure? {
        return Some(entries.error);
      }
      var app := Payload(cr.forProvider, entries.value);
      var rspErr := api.updateApplication(customerID, cr.externalName, app);
      calls := calls + [UpdateApplication(customerID, cr.externalName, app)];
      err := Wrap(rspErr, errUpdateFailed);
    }

    /**
     * Delete: without an external name it fails and sends nothing;
     * otherwise it force-deletes the application with that ID.
     */
    method Delete(cr: ApplicationSegment) returns (err: Option<Error>)
      modifies this
      ensures cr.externalName == "" ==> err == Some(New(errNotApplicationSegment)) && calls == old(calls)
      ensures cr.externalName != "" ==>
        && calls == old(calls) + [DeleteApplication(customerID, cr.externalName, Bool(true))]
        && err == Wrap(api.deleteApplication(customerID, cr.externalName), errDeleteFailed)
    {
      var id := cr.externalName;
      if id == "" {
        return Some(New(errNotApplicationSegment));
      }
      var rspErr := api.deleteApplication(customerID, id);
      calls := calls + [DeleteApplication(customerID, id, Bool(true))];
      err := Wrap(rspErr, errDeleteFailed);
    }
  }
}
