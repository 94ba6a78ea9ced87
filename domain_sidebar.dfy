/** The zone page's sidebar (components/domain-sidebar.tsx): its own zone
    fetch and the list of zone links, one of them highlighted for the zone in
    the route. */
module DomainSidebar {
  import opened Types
  import opened Fetch
  import Text
  import AccountContext

  /** A rendered zone link: its target, its text and whether it is highlighted. */
  datatype ZoneLink = ZoneLink(href: string, text: string, active: bool)

  /** The highlight rule: `params.zoneId === zone.id`. The route parameter is
      absent outside a zone page. */
  predicate Highlighted(zone: Zone, routeZoneId: Option<string>)
  {
    routeZoneId == Some(zone.id)
  }

  /** One link per zone, in order, each to `/zones/<id>`, labelled with the
      zone's name and highlighted exactly when its id is the route's. */
  function Links(zones: seq<Zone>, routeZoneId: Option<string>): (ls: seq<ZoneLink>)
    ensures |ls| == |zones|
    ensures forall i :: 0 <= i < |ls| ==> ls[i].href == "/zones/" + zones[i].id
    ensures forall i :: 0 <= i < |ls| ==> ls[i].text == zones[i].name
    ensures forall i :: 0 <= i < |ls| ==> (ls[i].active <==> routeZoneId == Some(zones[i].id))
  {
    if |zones| == 0 then []
    else [ZoneLink("/zones/" + zones[0].id, zones[0].name, Highlighted(zones[0], routeZoneId))]
         + Links(zones[1..], routeZoneId)
  }

  predicate DistinctIds(zones: seq<Zone>)
  {
    forall i, j :: 0 <= i < j < |zones| ==> zones[i].id != zones[j].id
  }

  /** Distinct ids identify positions. */
  lemma SameIdSamePosition(zones: seq<Zone>, i: int, j: int)
    requires DistinctIds(zones)
    requires 0 <= i < |zones| && 0 <= j < |zones| && zones[i].id == zones[j].id
    ensures i == j
  {
  }

  /** With distinct zone ids at most one link is highlighted. */
  lemma AtMostOneHighlighted(zones: seq<Zone>, routeZoneId: Option<string>)
    requires DistinctIds(zones)
    ensures forall i, j ::
              (0 <= i < |zones| && 0 <= j < |zones| &&
               Links(zones, routeZoneId)[i].active && Links(zones, routeZoneId)[j].active) ==> i == j
  {
    var ls := Links(zones, routeZoneId);
    forall i, j | 0 <= i < |zones| && 0 <= j < |zones| && ls[i].active && ls[j].active
      ensures i == j
    {
      assert zones[i].id == routeZoneId.value == zones[j].id;
      SameIdSamePosition(zones, i, j);
    }
  }

  /** What the sidebar shows below its heading. Unlike the home list, the
      skeleton and the error are independent blocks; the links appear only
      when neither is shown. */
  datatype SidebarView = SidebarView(skeleton: bool, errorText: Option<string>, links: seq<ZoneLink>)

  function Render(loading: bool, error: Option<string>, zones: seq<Zone>, routeZoneId: Option<string>): (v: SidebarView)
    ensures v.skeleton <==> loading
    ensures v.errorText.Some? <==> Text.Truthy(error)
    ensures v.errorText.Some? ==> v.errorText == error
    ensures |v.links| > 0 ==> !loading && !Text.Truthy(error)
    ensures !loading && !Text.Truthy(error) ==> v.links == Links(zones, routeZoneId)
  {
    SidebarView(loading,
                if Text.Truthy(error) then error else None,
                if !loading && !Text.Truthy(error) then Links(zones, routeZoneId) else [])
  }

  class DomainSidebarState {
    var zones: seq<Zone>
    var loading: bool
    var error: Option<string>

    constructor ()
      ensures zones == [] && loading && error == None
    {
      zones := [];
      loading := true;
      error := None;
    }

    /** fetchZones up to the request: without a selected account nothing
        happens; otherwise loading starts and the error is cleared. */
    method BeginFetchZones(selected: Option<AccountContext.CloudflareAccount>) returns (req: Option<Request<()>>)
      modifies this`loading, this`error
      ensures selected.None? ==> req.None? && loading == old(loading) && error == old(error)
      ensures selected.Some? ==>
                loading && error == None &&
                req == Some(Request(GET, ZonesPath, selected.value.email, selected.value.apiKey, None))
    {
      if selected.None? {
        return None;
      }
      loading := true;
      error := None;
      req := Some(Request(GET, ZonesPath, selected.value.email, selected.value.apiKey, None));
    }

    /** fetchZones after the request: a non-ok status fails with
        "Error: <status>", a failed envelope with its joined errors, a thrown
        error with its message; a successful envelope replaces the zones.
        Loading ends on every path. */
    method FinishFetchZones(o: Outcome<seq<Zone>>)
      modifies this`loading, this`error, this`zones
      ensures !loading
      ensures match SettleChecked(o, StatusError)
              case Success(result) => zones == result && error == old(error)
              case Failure(message) => zones == old(zones) && error == Some(message)
    {
      match SettleChecked(o, StatusError) {
        case Success(result) =>
          zones := result;
        case Failure(message) =>
          error := Some(message);
      }
      loading := false;
    }

    /** What the component renders from its three state cells and the route. */
    function View(routeZoneId: Option<string>): SidebarView
      reads this
    {
      Render(loading, error, zones, routeZoneId)
    }
  }

  /** After a successful fetch of zones with distinct ids, on the page of one of
      them, exactly that zone's link is highlighted. */
  method HighlightScenario(account: AccountContext.CloudflareAccount, zones: seq<Zone>, k: nat)
    returns (sidebar: DomainSidebarState)
    requires DistinctIds(zones) && k < |zones|
    ensures var links := sidebar.View(Some(zones[k].id)).links;
            |links| == |zones| && links[k].active &&
            forall i :: 0 <= i < |links| && i != k ==> !links[i].active
  {
    sidebar := new DomainSidebarState();
    var _ := sidebar.BeginFetchZones(Some(account));
    sidebar.FinishFetchZones(Resolved(Response(200, "OK", Envelope(true, zones, []))));
    AtMostOneHighlighted(zones, Some(zones[k].id));
  }
}
